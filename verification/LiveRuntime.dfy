/** One bounded attempt of the live investigation: reserve, intend, call, observe, settle, act.

    The store and the provider outlive the attempt's process; every other field is volatile.
    `if *` marks a place where the process may stop, by itself or because something outside
    this model raised. */
module LiveRuntime {
  import opened Common
  import opened Money
  import opened LiveTables
  import opened LiveStore
  import opened LiveBudget
  import opened LiveEvidence

  datatype Source = Source(content: Hash, timedOut: bool)

  /** What the verifier of the workflow says of a candidate. */
  datatype Check = Check(passed: bool, reason: string)

  datatype Config = Config(session: string, task: string, index: int, createdAt: string, profile: Profile,
                           price: Price, sources: map<Tool, Source>, exhaustionInjected: bool,
                           verifier: (Hash, seq<Hash>) -> Check)

  /** A draft and whether it passes redaction. */
  datatype Draft = Draft(content: Hash, safe: bool)

  datatype Proposal = Proposal(kind: ActionType, digest: Hash, reason: string,
                               references: Option<seq<Id>>, draft: Option<Draft>)

  datatype TurnResultRecord = TurnResultRecord(status: Status, available: bool, input: nat, output: nat,
                                               latency: nat, retryable: bool,
                                               classification: Option<string>, proposal: Option<Proposal>)

  /** What a provider adapter may return: an unknown outcome has no usage. */
  type TurnResult = r: TurnResultRecord | r.status.OutcomeUnknown? ==> !r.available
    witness TurnResultRecord(OutcomeUnknown, false, 0, 0, 0, false, None, None)

  datatype Contact = Contact(invocation: Id, result: TurnResult)

  class LiveProvider {
    ghost var contacts: seq<Contact>

    constructor ()
      ensures contacts == []
    {
      contacts := [];
    }

    /** Nothing is known of the result. */
    method Propose(ghost invocation: Id) returns (result: TurnResult)
      modifies this
      ensures contacts == old(contacts) + [Contact(invocation, result)]
    {
      result := *;
      contacts := contacts + [Contact(invocation, result)];
    }
  }

  datatype Failure = StoreRefused | UsageOverran | ActionBudgetExceeded | SourceMissing

  datatype Outcome =
    | Closed(outcome: string, reason: string, budget: Counters)
    | Raised(failure: Failure)
    | Crashed

  /** A tool result by the reference under which a draft may cite it. */
  datatype Evidence = Evidence(reference: Id, content: Hash)

  function References(evidence: seq<Evidence>): seq<Id> {
    seq(|evidence|, i requires 0 <= i < |evidence| => evidence[i].reference)
  }

  function Contents(evidence: seq<Evidence>): seq<Hash> {
    seq(|evidence|, i requires 0 <= i < |evidence| => evidence[i].content)
  }

  // ---- Bounds ----------------------------------------------------------------------------------

  /** 0 + 1 + ... + (n - 1). */
  function Triangle(n: nat): nat {
    if n == 0 then 0 else Triangle(n - 1) + n - 1
  }

  lemma {:induction false} TriangleIs(n: nat)
    ensures 2 * Triangle(n) == n * (n - 1)
  {
    if n > 0 {
      TriangleIs(n - 1);
    }
  }

  /** How often an action has the type of the one before it. */
  function Repeats(actions: seq<ActionType>): nat {
    if |actions| < 2 then 0
    else Repeats(actions[..|actions| - 1])
         + if actions[|actions| - 1] == actions[|actions| - 2] then 1 else 0
  }

  lemma RepeatsAppended(actions: seq<ActionType>, kind: ActionType)
    ensures Repeats(actions + [kind])
            == Repeats(actions) + if actions != [] && actions[|actions| - 1] == kind then 1 else 0
  {
    assert (actions + [kind])[..|actions|] == actions;
  }

  /** The n-th call of a turn, by its identity. */
  function NthOfTurn(id: Id): nat {
    if id.InvocationId? && id.sequence >= 0 then id.sequence else 0
  }

  /** The calls of a whole attempt: how many, and how many for one turn. */
  ghost predicate Bounded(ids: seq<Id>, profile: Profile) {
    && |ids| <= profile.callLimit && |ids| <= profile.actionLimit + profile.retryLimit
    && forall i :: 0 <= i < |ids| ==> Triangle(NthOfTurn(ids[i])) <= profile.retryLimit
  }

  ghost predicate CallsBefore(ids: seq<Id>, attempt: Id, turn: int, retry: int) {
    forall i :: 0 <= i < |ids| ==>
      && CallOf(attempt, ids[i])
      && (ids[i].turnId.turn < turn || (ids[i].turnId.turn == turn && ids[i].sequence <= retry))
  }

  /** The counters when `retry` calls of the turn have been made and its action not yet taken. */
  ghost predicate CountsAt(c: Counters, ids: seq<Id>, profile: Profile, attempt: Id, turn: nat, retry: nat) {
    && Within(profile, c) && c.calls == |ids| && c.sum.retry <= profile.retryLimit
    && c.actions + 1 == turn <= profile.actionLimit + 1
    && |ids| + 1 <= turn + c.sum.retry + (if retry > 0 then 1 else 0)
    && Triangle(retry) <= c.sum.retry
    && (forall i :: 0 <= i < |ids| ==> Triangle(NthOfTurn(ids[i])) <= profile.retryLimit)
    && CallsBefore(ids, attempt, turn, retry)
  }

  function StepOf(key: Id): int {
    match key
    case ActionDigest(step, _, _) => step
    case ToolRequestId(step, _) => step
    case TurnId(_, turn) => turn
    case _ => 0
  }

  /** Nothing was consumed for this or a later turn. */
  ghost predicate UnusedFrom(events: seq<Event>, what: Consumption, turn: int) {
    forall i :: 0 <= i < |events| && events[i].id.ConsumedId? && events[i].id.what == what ==>
      StepOf(events[i].id.key) < turn
  }

  ghost predicate Unused(events: seq<Event>, turn: int) {
    && UnusedFrom(events, ActionUse, turn) && UnusedFrom(events, ToolUse, turn)
    && UnusedFrom(events, NoProgress, turn)
  }

  function RepeatLimit(profile: Profile): nat {
    if profile.noProgressLimit >= 2 then profile.noProgressLimit - 2 else 0
  }

  /** The actions handed to the workflow, and what was counted about them. */
  ghost predicate Progressing(noProgress: int, recorded: seq<ActionType>, previous: Option<ActionType>,
                              profile: Profile) {
    && noProgress == Repeats(recorded) <= RepeatLimit(profile)
    && previous == if recorded == [] then None else Some(recorded[|recorded| - 1])
  }

  predicate AllRead(actions: seq<ActionType>, sources: map<Tool, Source>) {
    forall i :: 0 <= i < |actions| ==> actions[i].Read? && actions[i].tool in sources
  }

  /** What the reads bring in: one item each, in order, under the reference of its turn. */
  function ReadEvidence(actions: seq<ActionType>, sources: map<Tool, Source>): seq<Evidence>
    requires AllRead(actions, sources)
  {
    seq(|actions|, i requires 0 <= i < |actions| =>
      Evidence(EvidenceId(ToolRequestId(i + 1, actions[i].tool)), sources[actions[i].tool].content))
  }

  /** The evidence is that of the actions, all of them reads, and each was counted. */
  ghost predicate Collected(evidence: seq<Evidence>, actions: seq<ActionType>, sources: map<Tool, Source>,
                            tools: int) {
    AllRead(actions, sources) && evidence == ReadEvidence(actions, sources) && tools == |actions|
  }

  /** Before the action of a turn: one read for each turn so far. */
  ghost predicate Gathered(evidence: seq<Evidence>, actions: seq<ActionType>, sources: map<Tool, Source>,
                           tools: int, turn: int) {
    Collected(evidence, actions, sources, tools) && |actions| + 1 == turn
  }

  /** Wherever a run stops: only a last action may be missing from the evidence, and only a
      last read may be counted without being in it. */
  ghost predicate Heard(evidence: seq<Evidence>, actions: seq<ActionType>, sources: map<Tool, Source>, tools: int) {
    || Collected(evidence, actions, sources, tools)
    || (actions != []
        && var front, last := actions[..|actions| - 1], actions[|actions| - 1];
           && AllRead(front, sources) && evidence == ReadEvidence(front, sources)
           && |front| <= tools <= |front| + if last.Read? then 1 else 0)
  }

  /** The provider was contacted for the reserved calls in order, at most not yet for the last. */
  ghost predicate Contacted(contacts: seq<Contact>, from: nat, ids: seq<Id>, phase: Phase) {
    && from <= |contacts| <= from + |ids|
    && (forall i :: 0 <= i < |contacts| - from ==> contacts[from + i].invocation == ids[i])
    && (phase.Clear? || phase.Unsettled? ==> |contacts| == from + |ids|)
    && (phase.OnlyReserved? ==> |contacts| + 1 == from + |ids|)
    && (phase.Contacting? ==> |contacts| + 1 >= from + |ids|)
  }

  /** What a result is recorded as: reported usage, or else the whole reservation. */
  function ObservationOf(price: Price, intent: Intent, result: TurnResult, r: Reservation, observedAt: string)
    : Observation
  {
    if result.available
    then Observation(ObservationId(intent.invocation), intent.invocation, result.status, true, result.input,
                     result.output, result.input + result.output, Cost(price, result.input, result.output),
                     result.latency, result.classification, observedAt)
    else Observation(ObservationId(intent.invocation), intent.invocation, result.status, false, r.input, r.output,
                     r.total, r.cost, result.latency, result.classification, observedAt)
  }

  /** It records the reply: the usage reported, or all that was set aside. */
  predicate Records(o: Observation, price: Price, r: Reservation, result: TurnResult) {
    && o.status == result.status && (o.available <==> result.available) && o.latency == result.latency
    && o.classification == result.classification
    && (result.available ==>
          && o.input == result.input && o.output == result.output && o.total == o.input + o.output
          && o.cost == Cost(price, o.input, o.output))
    && (!result.available ==> o.input == r.input && o.output == r.output && o.total == r.total && o.cost == r.cost)
  }

  /** What is recorded of a contact, if anything, is what the provider replied. */
  predicate RepliedAt(intents: map<Id, Intent>, observations: map<Id, Observation>, price: Price, c: Contact) {
    var k := ObservationId(c.invocation);
    k in observations ==>
      && c.invocation in intents && observations[k].invocation == c.invocation
      && Records(observations[k], price, intents[c.invocation].reservation, c.result)
  }

  ghost predicate Replied(intents: map<Id, Intent>, observations: map<Id, Observation>, price: Price,
                          contacts: seq<Contact>, from: nat) {
    forall i :: from <= i < |contacts| ==> RepliedAt(intents, observations, price, contacts[i])
  }

  /** A new intent, a new contact and its observation keep that. */
  lemma RepliedAfterIntent(intents: map<Id, Intent>, observations: map<Id, Observation>, price: Price,
                           contacts: seq<Contact>, from: nat, p: Intent)
    requires Replied(intents, observations, price, contacts, from) && p.invocation !in intents
    ensures Replied(intents[p.invocation := p], observations, price, contacts, from)
  {
    hide Records;
  }

  lemma RepliedAfterContact(intents: map<Id, Intent>, observations: map<Id, Observation>, price: Price,
                            contacts: seq<Contact>, from: nat, c: Contact)
    requires Replied(intents, observations, price, contacts, from)
    requires ObservationId(c.invocation) !in observations
    ensures Replied(intents, observations, price, contacts + [c], from)
  {
    hide Records;
  }

  lemma RepliedAfterObservation(intents: map<Id, Intent>, observations: map<Id, Observation>, price: Price,
                                contacts: seq<Contact>, from: nat, o: Observation)
    requires Replied(intents, observations, price, contacts, from) && from < |contacts|
    requires forall i :: from <= i < |contacts| - 1 ==> contacts[i].invocation != o.invocation
    requires o.id == ObservationId(o.invocation)
    requires var c := contacts[|contacts| - 1];
             && c.invocation == o.invocation && c.invocation in intents
             && Records(o, price, intents[c.invocation].reservation, c.result)
    ensures Replied(intents, observations[o.id := o], price, contacts, from)
  {
    hide Records;
  }

  lemma ContactsDiffer(contacts: seq<Contact>, from: nat, ids: seq<Id>)
    requires Contacted(contacts, from, ids, Clear) && ids != []
    requires forall i, j :: 0 <= i < j < |ids| ==> ids[i] != ids[j]
    ensures from < |contacts| && contacts[|contacts| - 1].invocation == ids[|ids| - 1]
    ensures forall i :: from <= i < |contacts| - 1 ==> contacts[i].invocation != ids[|ids| - 1]
  {
    forall i | from <= i < |contacts| - 1
      ensures contacts[i].invocation != ids[|ids| - 1]
    {
      assert contacts[from + (i - from)].invocation == ids[i - from];
    }
    assert contacts[from + (|ids| - 1)].invocation == ids[|ids| - 1];
  }

  lemma ReplyRecorded(db: Database, attempt: Id, price: Price, contacts: seq<Contact>, from: nat, o: Observation)
    requires Evident(db, attempt, Contacting) && Contacted(contacts, from, CallsOf(db, attempt), Clear)
    requires Replied(db.intents, db.observations, price, contacts, from)
    requires o.id == ObservationId(o.invocation) && contacts != []
    requires CallsOf(db, attempt) != [] && o.invocation == CallsOf(db, attempt)[|CallsOf(db, attempt)| - 1]
    requires var c := contacts[|contacts| - 1];
             && c.invocation == o.invocation && c.invocation in db.intents
             && Records(o, price, db.intents[c.invocation].reservation, c.result)
    ensures Replied(db.intents, db.observations[o.id := o], price, contacts, from)
  {
    hide Evident, BooksOf, EventsOf, InOrder, Sound, Contacted, Listed, Replied, Records;
    EvidentMeans(db, attempt, Contacting);
    DistinctCalls(db, attempt);
    ContactsDiffer(contacts, from, CallsOf(db, attempt));
    RepliedAfterObservation(db.intents, db.observations, price, contacts, from, o);
  }

  lemma ProgressBounded(noProgress: int, recorded: seq<ActionType>, previous: Option<ActionType>, profile: Profile)
    requires Progressing(noProgress, recorded, previous, profile)
    ensures Repeats(recorded) <= RepeatLimit(profile)
  {
  }

  lemma ProgressMoved(noProgress: int, recorded: seq<ActionType>, previous: Option<ActionType>, profile: Profile,
                      kind: ActionType)
    requires Progressing(noProgress, recorded, previous, profile)
    ensures previous != Some(kind) ==> Progressing(noProgress, recorded + [kind], Some(kind), profile)
    ensures previous == Some(kind)
            && noProgress + 1 < (if profile.noProgressLimit > 2 then profile.noProgressLimit - 1 else 1) ==>
              Progressing(noProgress + 1, recorded + [kind], Some(kind), profile)
  {
    RepeatsAppended(recorded, kind);
  }

  /** Taking the action of the turn moves the counts on to the next. */
  lemma ActionCounted(c: Counters, c': Counters, ids: seq<Id>, profile: Profile, attempt: Id, turn: nat, calls: nat)
    requires CountsAt(c, ids, profile, attempt, turn, calls) && Within(profile, c')
    requires c'.calls == c.calls && c'.sum == c.sum && c'.actions == c.actions + 1
    ensures CountsAt(c', ids, profile, attempt, turn + 1, 0)
  {
  }

  predicate BindingOf(db: Database, k: Id, attempt: Id, evidence: seq<Evidence>, invocation: Id) {
    && k in db.bindings
    && var b := db.bindings[k];
       && b.attempt == attempt && b.invocation == invocation && b.observation == ObservationId(invocation)
       && b.evidence == Contents(evidence) && k == BindingDigest(b.artifact, b.observation, b.action, b.evidence)
       && b.artifact == ArtifactId(attempt, b.content) && b.artifact in db.artifacts
       && var a := db.artifacts[b.artifact];
          a.attempt == attempt && a.producer == invocation && a.content == b.content
          && a.evidence == Contents(evidence)
  }

  /** The candidate that was bound: its draft cites all evidence, and its rows carry the
      content hashes in the order in which they were read. */
  ghost predicate CandidateBound(db: Database, attempt: Id, evidence: seq<Evidence>, cited: seq<Id>,
                                 invocation: Id) {
    CitesAll(cited, evidence) && exists k :: BindingOf(db, k, attempt, evidence, invocation)
  }

  lemma StillBound(db: Database, db': Database, attempt: Id, evidence: seq<Evidence>, cited: seq<Id>,
                   invocation: Id)
    requires CandidateBound(db, attempt, evidence, cited, invocation)
    requires db'.artifacts == db.artifacts && db'.bindings == db.bindings
    ensures CandidateBound(db', attempt, evidence, cited, invocation)
  {
    var k :| BindingOf(db, k, attempt, evidence, invocation);
    assert BindingOf(db', k, attempt, evidence, invocation);
  }

  lemma ArtifactStored(db: Database, a: Artifact)
    requires Apply(db, AddArtifact(a)).Ok?
    ensures var db' := Apply(db, AddArtifact(a)).value; a.id in db'.artifacts && db'.artifacts[a.id] == a
  {
    hide Observed, HasEvent;
  }

  lemma BindingStored(db: Database, b: Binding)
    requires Apply(db, AddBinding(b)).Ok?
    ensures var db' := Apply(db, AddBinding(b)).value;
            db'.artifacts == db.artifacts && b.id in db'.bindings && db'.bindings[b.id] == b
  {
    hide Observed, HasEvent;
  }

  lemma ActionFits(c: Counters, ids: seq<Id>, profile: Profile, attempt: Id, turn: nat, calls: nat)
    requires CountsAt(c, ids, profile, attempt, turn, calls) && turn <= profile.actionLimit
    ensures c.actions + 1 <= profile.actionLimit
  {
  }

  /** Other uses do not matter to them. */
  lemma OtherCounted(c: Counters, c': Counters, ids: seq<Id>, profile: Profile, attempt: Id, turn: nat, calls: nat)
    requires CountsAt(c, ids, profile, attempt, turn, calls) && Within(profile, c')
    requires c'.calls == c.calls && c'.sum == c.sum && c'.actions == c.actions
    ensures CountsAt(c', ids, profile, attempt, turn, calls)
  {
  }

  lemma UsedUpTo(events: seq<Event>, e: Event, what: Consumption, turn: int)
    requires UnusedFrom(events, what, turn) && e.id.ConsumedId?
    requires e.id.what == what ==> StepOf(e.id.key) == turn
    ensures e.id.what == what ==> UnusedFrom(events + [e], what, turn + 1) && !HasEvent(events, e.id)
    ensures e.id.what != what ==> UnusedFrom(events + [e], what, turn)
    ensures UnusedFrom(events, what, turn + 1)
  {
  }

  lemma ReadUsed(events: seq<Event>, e: Event, turn: int)
    requires UnusedFrom(events, NoProgress, turn + 1) && UnusedFrom(events, ActionUse, turn + 1)
    requires UnusedFrom(events, ToolUse, turn)
    requires e.id.ConsumedId? && e.id.what == ToolUse && StepOf(e.id.key) == turn
    ensures Unused(events + [e], turn + 1)
  {
    hide UnusedFrom;
    UsedUpTo(events, e, ActionUse, turn + 1);
    UsedUpTo(events, e, ToolUse, turn);
    UsedUpTo(events, e, NoProgress, turn + 1);
  }

  lemma RepeatUsed(events: seq<Event>, e: Event, turn: int)
    requires UnusedFrom(events, NoProgress, turn) && UnusedFrom(events, ActionUse, turn + 1)
    requires UnusedFrom(events, ToolUse, turn)
    requires e.id.ConsumedId? && e.id.what == NoProgress && StepOf(e.id.key) == turn
    ensures UnusedFrom(events + [e], NoProgress, turn + 1) && UnusedFrom(events + [e], ActionUse, turn + 1)
    ensures UnusedFrom(events + [e], ToolUse, turn)
  {
    hide UnusedFrom;
    UsedUpTo(events, e, NoProgress, turn);
    UsedUpTo(events, e, ActionUse, turn + 1);
    UsedUpTo(events, e, ToolUse, turn);
  }

  /** The draft cites each piece of evidence, and nothing twice. */
  predicate CitesAll(cited: seq<Id>, evidence: seq<Evidence>) {
    multiset(cited) == multiset(References(evidence))
  }

  /** The test compares sets and lengths; for references that differ it finds permutations. */
  lemma SetAndLengthDecide(cited: seq<Id>, evidence: seq<Evidence>, actions: seq<ActionType>,
                           sources: map<Tool, Source>)
    requires AllRead(actions, sources) && evidence == ReadEvidence(actions, sources)
    ensures (set x | x in cited) == (set x | x in References(evidence)) && |cited| == |evidence|
            <==> CitesAll(cited, evidence)
  {
    var refs := References(evidence);
    ReferencesDiffer(actions, sources);
    hide ReadEvidence, AllRead;
    if (set x | x in cited) == (set x | x in refs) && |cited| == |refs| {
      DistinctSize(refs);
      FullSetDistinct(cited);
      DistinctPermutation(cited, refs);
    }
    if CitesAll(cited, evidence) {
      assert |multiset(cited)| == |multiset(refs)|;
      forall x
        ensures x in cited <==> x in refs
      {
        assert x in cited <==> x in multiset(cited);
      }
    }
  }

  lemma ReferencesDiffer(actions: seq<ActionType>, sources: map<Tool, Source>)
    requires AllRead(actions, sources)
    ensures Distinct(References(ReadEvidence(actions, sources)))
  {
  }

  lemma GatheredCollected(evidence: seq<Evidence>, actions: seq<ActionType>, sources: map<Tool, Source>, tools: int,
                          turn: int)
    requires Gathered(evidence, actions, sources, tools, turn)
    ensures Collected(evidence, actions, sources, tools)
  {
  }

  lemma CollectedReads(evidence: seq<Evidence>, actions: seq<ActionType>, sources: map<Tool, Source>, tools: int)
    requires Collected(evidence, actions, sources, tools)
    ensures AllRead(actions, sources)
  {
  }

  /** A read in turn adds its item. */
  lemma ReadCollected(evidence: seq<Evidence>, actions: seq<ActionType>, sources: map<Tool, Source>, tools: int,
                      turn: int, tool: Tool)
    requires Gathered(evidence, actions, sources, tools, turn) && tool in sources
    ensures Gathered(evidence + [Evidence(EvidenceId(ToolRequestId(turn, tool)), sources[tool].content)],
                     actions + [Read(tool)], sources, tools + 1, turn + 1)
  {
  }

  /** An action not yet carried out leaves the run where it may stop. */
  lemma StillHeard(evidence: seq<Evidence>, actions: seq<ActionType>, sources: map<Tool, Source>, tools: int,
                   turn: int, kind: ActionType)
    requires Gathered(evidence, actions, sources, tools, turn)
    ensures Heard(evidence, actions, sources, tools)
    ensures Heard(evidence, actions + [kind], sources, tools)
    ensures kind.Read? ==> Heard(evidence, actions + [kind], sources, tools + 1)
  {
    assert (actions + [kind])[..|actions|] == actions;
  }

  lemma ReservationCounted(c: Counters, ids: seq<Id>, profile: Profile, attempt: Id, turn: nat, retry: nat,
                           p: Posting, wall: nat)
    requires CountsAt(c, ids, profile, attempt, turn, retry) && turn <= profile.actionLimit
    requires Fits(profile, c, p, wall) && p.retry == retry
    ensures var c' := c.(calls := c.calls + 1, sum := Plus(c.sum, p));
            var ids' := ids + [InvocationId(TurnId(attempt, turn), retry + 1)];
            CountsAt(c', ids', profile, attempt, turn, retry + 1) && Bounded(ids', profile)
  {
  }

  lemma SettlementCounted(c: Counters, c': Counters, ids: seq<Id>, profile: Profile, attempt: Id, turn: nat,
                          retry: nat)
    requires CountsAt(c, ids, profile, attempt, turn, retry) && Within(profile, c')
    requires c' == c.(sum := c'.sum) && c'.sum.retry == c.sum.retry
    ensures CountsAt(c', ids, profile, attempt, turn, retry)
  {
  }

  lemma NewCall(ids: seq<Id>, attempt: Id, turn: int, retry: int)
    requires CallsBefore(ids, attempt, turn, retry)
    ensures InvocationId(TurnId(attempt, turn), retry + 1) !in ids
  {
  }

  /** A reservation that fits is counted, and bounds the calls so far. */
  lemma CallReserved(db: Database, db': Database, profile: Profile, attempt: Id, turn: nat, retry: nat,
                     r: Reservation, createdAt: string)
    requires Evident(db, attempt, Clear) && db.attempts[attempt].closing.None?
    requires CountsAt(CountersOf(AttemptEvents(db, attempt)), CallsOf(db, attempt), profile, attempt, turn, retry)
    requires turn <= profile.actionLimit && Unused(AttemptEvents(db, attempt), turn)
    requires r.invocation == InvocationId(TurnId(attempt, turn), retry + 1) && r.wall >= 0
    requires AtMost(NOTHING, PostingOf(r, r.invocation))
    requires Fits(profile, CountersOf(AttemptEvents(db, attempt)), PostingOf(r, r.invocation), r.wall)
    requires var e := ReservedEvent(attempt, r, retry, createdAt);
             && Apply(db, AddEvent(e)) == Ok(db')
             && Appended(AttemptEvents(db, attempt), e, AttemptEvents(db', attempt))
    ensures Evident(db', attempt, OnlyReserved) && db' == db.(events := db'.events) && attempt in db.attempts
    ensures CallsOf(db', attempt) == CallsOf(db, attempt) + [r.invocation] && Bounded(CallsOf(db', attempt), profile)
    ensures r.invocation in BooksAt(db', attempt).reserved
    ensures BooksAt(db', attempt).reserved[r.invocation] == PostingOf(r, r.invocation)
    ensures var c, c' := CountersOf(AttemptEvents(db, attempt)), CountersOf(AttemptEvents(db', attempt));
            && c'.noProgress == c.noProgress && c'.tools == c.tools
            && CountsAt(c', CallsOf(db', attempt), profile, attempt, turn, retry + 1)
    ensures Unused(AttemptEvents(db', attempt), turn)
  {
    EvidentMeans(db, attempt, Clear);
    hide Evident, BooksOf, EventsOf, CountersOf, Fits, Bounded, Appended, Apply, Unused;
    assert CallsBefore(CallsOf(db, attempt), attempt, turn, retry);
    hide CountsAt;
    NewCall(CallsOf(db, attempt), attempt, turn, retry);
    ReservedMovesOn(db, db', attempt, r, createdAt);
    ReservationCounted(CountersOf(AttemptEvents(db, attempt)), CallsOf(db, attempt), profile, attempt, turn, retry,
                       PostingOf(r, r.invocation), r.wall);
    StillUnused(AttemptEvents(db, attempt), ReservedEvent(attempt, r, retry, createdAt), turn);
  }

  /** A settlement leaves the counts as they are, but for tokens and cost. */
  lemma CallSettledUp(db: Database, db': Database, profile: Profile, attempt: Id, turn: nat, retry: nat,
                      p: Posting, latency: nat, createdAt: string)
    requires Evident(db, attempt, Unsettled) && |CallsOf(db, attempt)| > 0
    requires CountsAt(CountersOf(AttemptEvents(db, attempt)), CallsOf(db, attempt), profile, attempt, turn, retry + 1)
    requires Unused(AttemptEvents(db, attempt), turn)
    requires var b, e := BooksAt(db, attempt),
                         SettledEvent(attempt, CallsOf(db, attempt)[|CallsOf(db, attempt)| - 1], p, latency, createdAt);
             && e.invocation.value in b.reserved && b.reserved[e.invocation.value].retry == p.retry
             && p == Used(db.observations, e.invocation.value)
             && Apply(db, AddEvent(e)) == Ok(db')
             && Appended(AttemptEvents(db, attempt), e, AttemptEvents(db', attempt))
    ensures Evident(db', attempt, Clear) && db' == db.(events := db'.events)
    ensures CallsOf(db', attempt) == CallsOf(db, attempt)
    ensures Unused(AttemptEvents(db', attempt), turn)
    ensures AttemptEvents(db', attempt) != AttemptEvents(db, attempt)
    ensures var c, c' := CountersOf(AttemptEvents(db, attempt)), CountersOf(AttemptEvents(db', attempt));
            var last := CallsOf(db, attempt)[|CallsOf(db, attempt)| - 1];
            && (Within(profile, c') && c' == c.(sum := c'.sum)
                && c'.sum == Plus(Minus(c.sum, BooksAt(db, attempt).reserved[last]), p) ==>
                  CountsAt(c', CallsOf(db', attempt), profile, attempt, turn, retry + 1))
  {
    hide Evident, BooksOf, EventsOf, CountersOf, Appended, Apply, Unused, CountsAt, Within, Used;
    var last := CallsOf(db, attempt)[|CallsOf(db, attempt)| - 1];
    SettlementMovesOn(db, db', attempt, p, latency, createdAt);
    StillUnused(AttemptEvents(db, attempt), SettledEvent(attempt, last, p, latency, createdAt), turn);
    var c, c' := CountersOf(AttemptEvents(db, attempt)), CountersOf(AttemptEvents(db', attempt));
    if Within(profile, c') && c' == c.(sum := c'.sum)
       && c'.sum == Plus(Minus(c.sum, BooksAt(db, attempt).reserved[last]), p) {
      SettlementCounted(c, c', CallsOf(db, attempt), profile, attempt, turn, retry + 1);
    }
  }

  /** The usage recorded of some call outran its reservation. */
  ghost predicate Outrun(db: Database, attempt: Id) {
    exists k :: k in CallsOf(db, attempt) && OutrunAt(db, attempt, k)
  }

  predicate OutrunAt(db: Database, attempt: Id, k: Id) {
    var b := BooksAt(db, attempt);
    k in b.reserved && !AtMost(Used(db.observations, k), b.reserved[k])
  }

  lemma OutrunBy(db: Database, db': Database, attempt: Id, k: Id)
    requires k in CallsOf(db, attempt) && k in BooksAt(db, attempt).reserved
    requires var used, reserved := Used(db.observations, k), BooksAt(db, attempt).reserved[k];
             used.input > reserved.input || used.output > reserved.output
    requires CallsOf(db', attempt) == CallsOf(db, attempt) && db'.observations == db.observations
    requires BooksAt(db', attempt).reserved == BooksAt(db, attempt).reserved
    ensures Outrun(db', attempt)
  {
    hide BooksOf, EventsOf, Used;
    assert OutrunAt(db', attempt, k);
  }

  lemma ContactAhead(contacts: seq<Contact>, from: nat, ids: seq<Id>, id: Id)
    requires Contacted(contacts, from, ids, Clear)
    ensures Contacted(contacts, from, ids + [id], OnlyReserved)
    ensures Contacted(contacts, from, ids + [id], Contacting)
  {
  }

  /** The observations gathered are those of the calls in order, but for a call that has none yet. */
  ghost predicate Listed(observationIds: seq<Id>, calls: seq<Id>, phase: Phase) {
    && |observationIds| == (if phase.OnlyReserved? || phase.Contacting? then |calls| - 1 else |calls|)
    && forall i :: 0 <= i < |observationIds| ==> observationIds[i] == ObservationId(calls[i])
  }

  lemma ListedAhead(observationIds: seq<Id>, calls: seq<Id>, id: Id)
    requires Listed(observationIds, calls, Clear)
    ensures Listed(observationIds, calls + [id], OnlyReserved)
  {
  }

  lemma ListedStill(observationIds: seq<Id>, calls: seq<Id>)
    ensures Listed(observationIds, calls, OnlyReserved) <==> Listed(observationIds, calls, Contacting)
    ensures Listed(observationIds, calls, Clear) <==> Listed(observationIds, calls, Unsettled)
  {
  }

  lemma ListedNow(observationIds: seq<Id>, calls: seq<Id>, id: Id)
    requires Listed(observationIds, calls, Contacting)
    requires calls != [] && id == ObservationId(calls[|calls| - 1])
    ensures Listed(observationIds + [id], calls, Clear)
  {
  }

  lemma CountsWithin(c: Counters, ids: seq<Id>, profile: Profile, attempt: Id, turn: nat, retry: nat)
    requires CountsAt(c, ids, profile, attempt, turn, retry)
    ensures Within(profile, c)
  {
  }

  lemma AllContacted(contacts: seq<Contact>, from: nat, ids: seq<Id>)
    requires Contacted(contacts, from, ids, Clear)
    ensures Contacted(contacts, from, ids, Unsettled) && Contacted(contacts, from, ids, Contacting)
  {
  }

  lemma NotYetContacted(contacts: seq<Contact>, from: nat, ids: seq<Id>)
    requires Contacted(contacts, from, ids, OnlyReserved)
    ensures Contacted(contacts, from, ids, Contacting)
  {
  }

  lemma ContactMade(contacts: seq<Contact>, from: nat, ids: seq<Id>, c: Contact)
    requires Contacted(contacts, from, ids, OnlyReserved) && ids != [] && ids[|ids| - 1] == c.invocation
    ensures forall phase: Phase :: !phase.OnlyReserved? ==> Contacted(contacts + [c], from, ids, phase)
  {
  }

  lemma StillUnused(events: seq<Event>, e: Event, turn: int)
    requires Unused(events, turn) && !e.id.ConsumedId?
    ensures Unused(events + [e], turn)
  {
  }

  /** Each call contacted was reserved so that it ends in time, if it keeps to its timeout. */
  ghost predicate Admitted(intents: map<Id, Intent>, profile: Profile, contacts: seq<Contact>, from: nat) {
    forall i :: from <= i < |contacts| ==>
      contacts[i].invocation in intents && InTime(profile, intents[contacts[i].invocation].reservation)
  }

  predicate InTime(profile: Profile, r: Reservation) {
    r.timeout == profile.timeout <= r.wall <= profile.wallLimit
  }

  lemma AdmittedAfterIntent(intents: map<Id, Intent>, profile: Profile, contacts: seq<Contact>, from: nat, p: Intent)
    requires Admitted(intents, profile, contacts, from) && p.invocation !in intents
    ensures Admitted(intents[p.invocation := p], profile, contacts, from)
  {
  }

  lemma AdmittedAfterContact(intents: map<Id, Intent>, profile: Profile, contacts: seq<Contact>, from: nat, c: Contact)
    requires Admitted(intents, profile, contacts, from)
    requires c.invocation in intents && InTime(profile, intents[c.invocation].reservation)
    ensures Admitted(intents, profile, contacts + [c], from)
  {
  }

  // ---- Why an attempt is closed -------------------------------------------------------------

  /** All turns are taken, a call was refused that was asked for with this prompt at this time,
      or the last reply was judged. */
  datatype Why = Unsaid | AllTurnsTaken | CallRefused(bytes: nat, elapsed: nat, retry: nat) | Judged(reply: TurnResult)

  /** A byte of the prompt is taken for a token. */
  predicate CallOverLimits(cfg: Config, c: Counters, why: Why) {
    && why.CallRefused?
    && OverLimits(cfg.profile, cfg.price, c, if why.bytes == 0 then 1 else why.bytes,
                  if cfg.profile.outputLimit > 600 then 600 else cfg.profile.outputLimit, why.elapsed, why.retry)
  }

  /** What a reply comes to: another turn, or an end. */
  datatype Verdict = GoesOn | EndsWith(outcome: string, reason: string)

  function StatusName(status: Status): string {
    match status
    case Completed => "completed"
    case RetryableError => "observed_retryable_error"
    case OutcomeUnknown => "provider_outcome_unknown"
    case Malformed => "malformed_model_output"
    case Denied => "rejected"
  }

  /** The repeats a further action makes come to one below the limit, or to the first. */
  predicate RepeatsAtLimit(profile: Profile, actions: seq<ActionType>, kind: ActionType) {
    && actions != [] && actions[|actions| - 1] == kind
    && var repeats := Repeats(actions + [kind]); repeats >= 1 && repeats + 1 >= profile.noProgressLimit
  }

  /** The verifier decides of a draft that is safe and cites all evidence. */
  function DraftVerdict(cfg: Config, proposal: Proposal, evidence: seq<Evidence>): Verdict {
    if !proposal.draft.Some? || !proposal.references.Some? then EndsWith("policy_denied", "response_draft_invalid")
    else if !CitesAll(proposal.references.value, evidence)
    then EndsWith("policy_denied", "response_draft_evidence_invalid")
    else if proposal.draft.value.safe then
      var check := cfg.verifier(proposal.draft.value.content, Contents(evidence));
      EndsWith(if check.passed then "response_ready" else "needs_operator", check.reason)
    else EndsWith("policy_denied", "response_draft_redaction_failed")
  }

  /** What a proposal comes to behind these actions, all of them reads. */
  function ActionVerdict(cfg: Config, actions: seq<ActionType>, proposal: Proposal): Verdict
    requires AllRead(actions, cfg.sources)
  {
    if RepeatsAtLimit(cfg.profile, actions, proposal.kind)
    then EndsWith("needs_operator", "no_progress_limit_reached")
    else ProposalVerdict(cfg, actions, proposal)
  }

  /** What a read comes to behind n others. */
  function ReadVerdict(cfg: Config, n: nat, tool: Tool): Verdict {
    if n >= cfg.profile.toolLimit then EndsWith("budget_exhausted", "tool_budget_exhausted")
    else if tool in cfg.sources && cfg.sources[tool].timedOut then EndsWith("tool_timeout", "declared_tool_timeout")
    else GoesOn
  }

  function ProposalVerdict(cfg: Config, actions: seq<ActionType>, proposal: Proposal): Verdict
    requires AllRead(actions, cfg.sources)
  {
    match proposal.kind
    case Read(tool) => ReadVerdict(cfg, |actions|, tool)
    case NeedsInformation => EndsWith("needs_information", proposal.reason)
    case NeedsOperator => EndsWith("needs_operator", proposal.reason)
    case ResponseCandidate => DraftVerdict(cfg, proposal, ReadEvidence(actions, cfg.sources))
  }

  /** And the last reply of a turn. */
  function ReplyVerdict(cfg: Config, actions: seq<ActionType>, reply: TurnResult): Verdict
    requires AllRead(actions, cfg.sources)
  {
    if reply.status != Completed || reply.proposal == None
    then EndsWith(StatusName(reply.status),
                  if reply.classification == None || reply.classification == Some("") then StatusName(reply.status)
                  else reply.classification.value)
    else if cfg.exhaustionInjected then EndsWith("budget_exhausted", "fault_injected_budget_exhaustion")
    else ActionVerdict(cfg, actions, reply.proposal.value)
  }

  /** An attempt that closed did so as the verdict says. */
  predicate Obeys(out: Outcome, verdict: Verdict) {
    out.Closed? ==>
      match verdict
      case GoesOn => false
      case EndsWith(outcome, reason) => out.outcome == outcome && out.reason == reason
  }

  /** The outcome of an attempt that ends for a failed reply, and its reason where the provider
      gives none. */
  lemma FailuresNamed(cfg: Config, actions: seq<ActionType>, reply: TurnResult)
    requires AllRead(actions, cfg.sources) && (reply.status != Completed || reply.proposal == None)
    ensures var v := ReplyVerdict(cfg, actions, reply);
            && v.EndsWith?
            && (reply.status == Completed ==> v.outcome == "completed")
            && (reply.status == RetryableError ==> v.outcome == "observed_retryable_error")
            && (reply.status == OutcomeUnknown ==> v.outcome == "provider_outcome_unknown")
            && (reply.status == Malformed ==> v.outcome == "malformed_model_output")
            && (reply.status == Denied ==> v.outcome == "rejected")
            && v.reason == if reply.classification in {None, Some("")} then v.outcome else reply.classification.value
  {
  }

  /** A response is ready exactly when the model proposed a safe draft that cites all evidence,
      nothing twice, without repeating itself up to the limit, and the verifier passed it. */
  lemma ReadyExactly(cfg: Config, actions: seq<ActionType>, reply: TurnResult, out: Outcome)
    requires AllRead(actions, cfg.sources)
    requires out.Closed? && Obeys(out, ReplyVerdict(cfg, actions, reply))
    ensures out.outcome == "response_ready"
            <==> && reply.status == Completed && reply.proposal.Some? && !cfg.exhaustionInjected
                 && var p, evidence := reply.proposal.value, ReadEvidence(actions, cfg.sources);
                    && p.kind.ResponseCandidate? && !RepeatsAtLimit(cfg.profile, actions, p.kind)
                    && p.draft.Some? && p.draft.value.safe
                    && p.references.Some? && CitesAll(p.references.value, evidence)
                    && cfg.verifier(p.draft.value.content, Contents(evidence)).passed
  {
    hide RepeatsAtLimit, CitesAll, Contents;
  }

  lemma RepeatsDecide(noProgress: int, actions: seq<ActionType>, previous: Option<ActionType>, profile: Profile,
                      kind: ActionType)
    requires Progressing(noProgress, actions, previous, profile)
    ensures previous != Some(kind) ==> !RepeatsAtLimit(profile, actions, kind)
    ensures previous == Some(kind) ==>
              (RepeatsAtLimit(profile, actions, kind)
               <==> noProgress + 1 >= if profile.noProgressLimit > 2 then profile.noProgressLimit - 1 else 1)
  {
    RepeatsAppended(actions, kind);
  }

  // ---- The turns that have their action -----------------------------------------------------

  /** The first n turns of the attempt have their action, and no others but those that had it
      before. */
  ghost predicate Signed(before: map<Id, Turn>, turns: map<Id, Turn>, attempt: Id, n: nat) {
    && (forall k :: k in before ==> k in turns)
    && forall k :: k in turns && turns[k].attempt == attempt ==>
         (turns[k].action.Some? <==> 1 <= turns[k].index <= n || (k in before && before[k].action.Some?))
  }

  lemma NoneSigned(turns: map<Id, Turn>, attempt: Id)
    ensures Signed(turns, turns, attempt, 0)
  {
  }

  lemma TurnSignedLater(db: Database, before: map<Id, Turn>, attempt: Id, n: nat, createdAt: string)
    requires Signed(before, db.turns, attempt, n) && Apply(db, AddTurn(attempt, n + 1, createdAt)).Ok?
    ensures Signed(before, Apply(db, AddTurn(attempt, n + 1, createdAt)).value.turns, attempt, n)
  {
    hide Observed, HasEvent;
  }

  lemma SignedOnce(db: Database, before: map<Id, Turn>, attempt: Id, n: nat, action: Id)
    requires Evident(db, attempt, Clear) && Signed(before, db.turns, attempt, n)
    requires Apply(db, RecordAction(TurnId(attempt, n + 1), action)).Ok?
    ensures Signed(before, Apply(db, RecordAction(TurnId(attempt, n + 1), action)).value.turns, attempt, n + 1)
  {
    hide Signed, Apply, InOrder, CallsEvident, EventsOf, BooksOf;
    TurnSigned(db, before, attempt, n, action);
  }

  lemma ActionsTaken(c: Counters, ids: seq<Id>, profile: Profile, attempt: Id, turn: nat)
    requires CountsAt(c, ids, profile, attempt, turn, 0)
    ensures c.actions + 1 == turn
  {
  }

  lemma TurnNumber(evidence: seq<Evidence>, actions: seq<ActionType>, sources: map<Tool, Source>, tools: int, turn: int)
    requires Gathered(evidence, actions, sources, tools, turn)
    ensures turn == |actions| + 1 && tools == |actions|
  {
  }

  lemma TurnSigned(db: Database, before: map<Id, Turn>, attempt: Id, n: nat, action: Id)
    requires Signed(before, db.turns, attempt, n) && TurnsSound(db.attempts, db.turns)
    requires Apply(db, RecordAction(TurnId(attempt, n + 1), action)).Ok?
    ensures Signed(before, Apply(db, RecordAction(TurnId(attempt, n + 1), action)).value.turns, attempt, n + 1)
  {
    hide Apply, Signed, TurnsSound;
    ActionRecorded(db, TurnId(attempt, n + 1), action);
    RowSigned(db.attempts, before, db.turns, attempt, n, action);
  }

  lemma ActionRecorded(db: Database, k: Id, action: Id)
    requires Apply(db, RecordAction(k, action)).Ok?
    ensures k in db.turns
    ensures Apply(db, RecordAction(k, action)).value.turns == db.turns[k := db.turns[k].(action := Some(action))]
  {
    hide Observed, HasEvent;
  }

  lemma RowSigned(attempts: map<Id, Attempt>, before: map<Id, Turn>, turns: map<Id, Turn>, attempt: Id, n: nat,
                  action: Id)
    requires Signed(before, turns, attempt, n) && TurnsSound(attempts, turns) && TurnId(attempt, n + 1) in turns
    ensures var k := TurnId(attempt, n + 1);
            Signed(before, turns[k := turns[k].(action := Some(action))], attempt, n + 1)
  {
  }

  class LiveRuntime {
    const cfg: Config
    const attempt: Id
    const store: LiveEvaluationStore
    const ledger: LiveBudgetLedger
    const provider: LiveProvider

    var evidence: seq<Evidence>
    var recorded: seq<ActionType>
    var previous: Option<ActionType>
    var observationIds: seq<Id>
    ghost var from: nat
    ghost var turnsBefore: map<Id, Turn>
    ghost var signed: nat

    constructor (cfg: Config, store: LiveEvaluationStore, provider: LiveProvider)
      ensures this.cfg == cfg && this.store == store && this.provider == provider && Wired()
      ensures fresh(ledger)
    {
      this.cfg, this.store, this.provider := cfg, store, provider;
      attempt := AttemptId(cfg.session, cfg.task, cfg.index);
      ledger := new LiveBudgetLedger(store, AttemptId(cfg.session, cfg.task, cfg.index), cfg.profile, cfg.price);
      evidence, recorded, previous, observationIds := [], [], None, [];
      from, turnsBefore, signed := 0, map[], 0;
    }

    ghost predicate Wired() {
      && attempt == AttemptId(cfg.session, cfg.task, cfg.index)
      && ledger.store == store && ledger.attempt == attempt
      && ledger.profile == cfg.profile && ledger.price == cfg.price
    }

    /** What a crash leaves: the evidence of the calls, and their bounds. */
    ghost predicate Intact(phase: Phase)
      reads this, store, provider
    {
      && Wired() && Evident(store.db, attempt, phase)
      && Bounded(CallsOf(store.db, attempt), cfg.profile)
      && Contacted(provider.contacts, from, CallsOf(store.db, attempt), phase)
      && Listed(observationIds, CallsOf(store.db, attempt), phase)
      && Replied(store.db.intents, store.db.observations, cfg.price, provider.contacts, from)
      && Admitted(store.db.intents, cfg.profile, provider.contacts, from)
      && TurnsSigned()
    }

    /** The actions are in their rows before the workflow has them. */
    ghost predicate TurnsSigned()
      reads this, store
    {
      Signed(turnsBefore, store.db.turns, attempt, signed) && |recorded| <= signed <= |recorded| + 1
    }

    ghost function CurrentCounters(): Counters
      reads this, store
    {
      CountersOf(AttemptEvents(store.db, attempt))
    }

    /** Between calls of a turn. */
    ghost predicate InTurn(turn: nat, retry: nat)
      reads this, store, provider
    {
      && Intact(Clear) && store.db.attempts[attempt].closing.None? && signed == |recorded|
      && CountsAt(CurrentCounters(), CallsOf(store.db, attempt), cfg.profile, attempt, turn, retry)
      && Unused(AttemptEvents(store.db, attempt), turn)
      && Progressing(CurrentCounters().noProgress, recorded, previous, cfg.profile)
      && Gathered(evidence, recorded, cfg.sources, CurrentCounters().tools, turn)
    }

    /** Close the attempt and report its budget. */
    method CloseResult(outcome: string, reason: string) returns (out: Outcome)
      requires Intact(Clear) && store.db.attempts[attempt].closing.None?
      modifies store
      ensures Intact(Clear) && AttemptEvents(store.db, attempt) == old(AttemptEvents(store.db, attempt))
      ensures attempt in store.db.attempts
      ensures store.db == old(store.db).(attempts := store.db.attempts)
      ensures out.Crashed? || (out == Closed(outcome, reason, CurrentCounters())
                               && store.db.attempts[attempt].closing.Some?
                               && store.db.attempts[attempt].closing.value.outcome == outcome)
    {
      hide Evident, Bounded, Contacted, Listed, Replied, Admitted, Signed, CountersOf, Grows;
      EvidentMeans(store.db, attempt, Clear);
      if * {
        return Crashed;
      }
      var completedAt: string := *;
      ghost var before := store.db;
      var error := store.CloseAttempt(attempt, Closing(outcome, reason, completedAt));
      ClosedEvident(before, attempt, Closing(outcome, reason, completedAt));
      if * {
        return Crashed;
      }
      var budget := ledger.Snapshot();
      return Closed(outcome, reason, budget.value);
    }

    /** Reserve the next call of the turn. */
    method ReserveCall(turn: nat, retry: nat, bytes: nat, elapsed: nat)
      returns (stop: Option<Outcome>, reservation: Option<Reservation>)
      requires InTurn(turn, retry) && turn <= cfg.profile.actionLimit
      modifies store
      ensures stop.Some? ==> Intact(Clear) && Settling(stop.value) && Quiet(stop.value)
                             && stop.value != Raised(UsageOverran)
                             && AttemptEvents(store.db, attempt) == old(AttemptEvents(store.db, attempt))
      ensures stop.Some? && stop.value.Closed? ==>
                && stop.value.outcome == "budget_exhausted" && stop.value.reason == "live_budget_exhausted"
                && CallOverLimits(cfg, old(CurrentCounters()), CallRefused(bytes, elapsed, retry))
      ensures stop.None? ==>
                && Intact(OnlyReserved) && reservation.Some?
                && AtCall(turn, retry, reservation.value)
                && !CallOverLimits(cfg, old(CurrentCounters()), CallRefused(bytes, elapsed, retry))
    {
      hide Evident, Bounded, Contacted, Listed, Replied, Admitted, Signed, CountersOf, CountsAt, Unused, Progressing,
           Gathered, Heard, CallOverLimits, Cost, Within, EventsOf, BooksOf, InOrder, Issued, Appended, Apply;
      reservation := None;
      var reserved := AskLedger(turn, retry, bytes, elapsed);
      if reserved.Refused? {
        if reserved.error.Exceeded? {
          var out := CloseResult("budget_exhausted", "live_budget_exhausted");
          return Some(out), None;
        }
        return Some(Raised(StoreRefused)), None;
      }
      return None, Some(reserved.value);
    }

    /** Have the ledger reserve a token for each byte of the prompt, and the output limit up to 600. */
    method AskLedger(turn: nat, retry: nat, bytes: nat, elapsed: nat)
      returns (reserved: Checked<Reservation, LedgerError>)
      requires InTurn(turn, retry) && turn <= cfg.profile.actionLimit
      modifies store
      ensures reserved.Refused? ==> store.db == old(store.db)
      ensures reserved == Refused(Exceeded)
              <==> CallOverLimits(cfg, old(CurrentCounters()), CallRefused(bytes, elapsed, retry))
      ensures reserved.Ok? ==> Intact(OnlyReserved) && AtCall(turn, retry, reserved.value)
    {
      hide Evident, Bounded, Contacted, Listed, Replied, Admitted, Signed, CountersOf, CountsAt, Unused, Progressing,
           Gathered, Heard, OverLimits, Fits, Cost, Within, EventsOf, BooksOf, InOrder, Issued, Appended, Apply;
      var invocation := InvocationId(TurnId(attempt, turn), retry + 1);
      var input := if bytes > 1 then bytes else 1;
      var output := if cfg.profile.outputLimit < 600 then cfg.profile.outputLimit else 600;
      ghost var before, c := store.db, CurrentCounters();
      EvidentMeans(before, attempt, Clear);
      reserved := ledger.ReserveProviderCall(invocation, input, output, elapsed, cfg.createdAt, retry);
      if reserved.Refused? {
        return;
      }
      FitsWithinLimits(cfg.profile, cfg.price, c, input, output, elapsed, retry);
      CallReserved(before, store.db, cfg.profile, attempt, turn, retry, reserved.value, cfg.createdAt);
      ContactAhead(provider.contacts, from, CallsOf(before, attempt), invocation);
      ListedAhead(observationIds, CallsOf(before, attempt), invocation);
    }

    /** A call is reserved, and counted. */
    ghost predicate AtCall(turn: nat, retry: nat, r: Reservation)
      reads this, store
    {
      var ids := CallsOf(store.db, attempt);
      && |ids| > 0 && ids[|ids| - 1] == r.invocation == InvocationId(TurnId(attempt, turn), retry + 1)
      && Issued(cfg.price, AttemptEvents(store.db, attempt), r)
      && r.invocation in BooksAt(store.db, attempt).reserved
      && BooksAt(store.db, attempt).reserved[r.invocation] == PostingOf(r, r.invocation)
      && r.input >= 0 && r.output >= 0 && r.total == r.input + r.output
      && r.cost == Cost(cfg.price, r.input, r.output)
      && attempt in store.db.attempts && store.db.attempts[attempt].closing.None? && signed == |recorded|
      && InTime(cfg.profile, r) && CountsAt(CurrentCounters(), ids, cfg.profile, attempt, turn, retry + 1)
      && Unused(AttemptEvents(store.db, attempt), turn)
      && Progressing(CurrentCounters().noProgress, recorded, previous, cfg.profile)
      && Gathered(evidence, recorded, cfg.sources, CurrentCounters().tools, turn)
    }

    /** How a run may end here: a crash, an error, or a close with the budget it reports. */
    ghost predicate Settling(out: Outcome)
      reads this, store
    {
      match out
      case Crashed => true
      case Raised(failure) => failure != ActionBudgetExceeded
      case Closed(outcome, _, budget) =>
        && budget == CurrentCounters() && attempt in store.db.attempts
        && store.db.attempts[attempt].closing.Some?
        && store.db.attempts[attempt].closing.value.outcome == outcome
    }

    /** Put the reserved call to the provider, once its intent is durable. */
    method ContactProvider(turn: nat, retry: nat, r: Reservation)
      returns (stop: Option<Outcome>, intent: Intent, result: TurnResult, ghost phase: Phase)
      requires Intact(OnlyReserved) && AtCall(turn, retry, r)
      modifies store, provider
      ensures Intact(phase) && AtCall(turn, retry, r) && old(provider.contacts) <= provider.contacts
      ensures stop in {None, Some(Crashed), Some(Raised(StoreRefused))}
      ensures stop.None? ==> phase.Contacting? && intent.invocation == r.invocation && intent.reservation == r
                             && r.invocation in store.db.intents && store.db.intents[r.invocation] == intent
                             && Contacted(provider.contacts, from, CallsOf(store.db, attempt), Clear)
                             && provider.contacts == old(provider.contacts) + [Contact(r.invocation, result)]
    {
      hide Evident, Bounded, Contacted, Listed, Replied, Admitted, Signed, CountersOf, CountsAt, Unused, Progressing,
           Gathered, Heard, EventsOf, BooksOf, InOrder, Issued, Apply;
      phase, result := OnlyReserved, *;
      var digest: Hash := *;
      intent := Intent(r.invocation, r.invocation.turnId, r, digest);
      if * {
        return Some(Crashed), intent, result, phase;
      }
      ghost var before := store.db;
      var error := store.AppendIntent(intent);
      if error.Some? {
        return Some(Raised(StoreRefused)), intent, result, phase;
      }
      IntentMovesOn(before, store.db, attempt, intent);
      RepliedAfterIntent(before.intents, before.observations, cfg.price, provider.contacts, from, intent);
      AdmittedAfterIntent(before.intents, cfg.profile, provider.contacts, from, intent);
      NotYetContacted(provider.contacts, from, CallsOf(store.db, attempt));
      ListedStill(observationIds, CallsOf(store.db, attempt));
      phase := Contacting;
      if * {
        return Some(Crashed), intent, result, phase;
      }
      result := provider.Propose(r.invocation);
      ContactMade(old(provider.contacts), from, CallsOf(store.db, attempt), Contact(r.invocation, result));
      RepliedAfterContact(store.db.intents, store.db.observations, cfg.price, old(provider.contacts), from,
                          Contact(r.invocation, result));
      AdmittedAfterContact(store.db.intents, cfg.profile, old(provider.contacts), from, Contact(r.invocation, result));
      if * {
        return Some(Crashed), intent, result, phase;
      }
      return None, intent, result, phase;
    }

    /** Record what the provider's result says, then settle the reservation by it. */
    method ObserveCall(turn: nat, retry: nat, r: Reservation, intent: Intent, result: TurnResult)
      returns (stop: Option<Outcome>, ghost phase: Phase)
      requires Intact(Contacting) && AtCall(turn, retry, r)
      requires intent.invocation == r.invocation && intent.reservation == r
      requires r.invocation in store.db.intents && store.db.intents[r.invocation] == intent
      requires Contacted(provider.contacts, from, CallsOf(store.db, attempt), Clear)
      requires |provider.contacts| > 0 && provider.contacts[|provider.contacts| - 1] == Contact(r.invocation, result)
      modifies this`observationIds, store
      ensures Intact(phase)
      ensures stop.Some? ==> Settling(stop.value) && !stop.value.Closed?
                             && BudgetKept(stop.value)
                             && CurrentCounters().tools == old(CurrentCounters()).tools
      ensures stop.None? ==> phase.Clear? && InTurn(turn, retry + 1)
    {
      hide Evident, Bounded, Contacted, Listed, Replied, Admitted, Signed, CountersOf, CountsAt, Unused, Progressing,
           Gathered, Heard, EventsOf, BooksOf, InOrder, Issued, Apply, Cost, Within, Outrun;
      phase := Contacting;
      CountsWithin(CurrentCounters(), CallsOf(store.db, attempt), cfg.profile, attempt, turn, retry + 1);
      AllContacted(provider.contacts, from, CallsOf(store.db, attempt));
      var observedAt: string := *;
      var observation := ObservationOf(cfg.price, intent, result, r, observedAt);
      ghost var before := store.db;
      ReplyRecorded(before, attempt, cfg.price, provider.contacts, from, observation);
      var error := store.AppendObservation(observation);
      if error.Some? {
        return Some(Raised(StoreRefused)), phase;
      }
      ObservationMovesOn(before, store.db, attempt, observation);
      ListedNow(observationIds, CallsOf(store.db, attempt), observation.id);
      observationIds := observationIds + [observation.id];
      ListedStill(observationIds, CallsOf(store.db, attempt));
      phase := if result.status.OutcomeUnknown? then Clear else Unsettled;
      if * {
        return Some(Crashed), phase;
      }
      if !result.status.OutcomeUnknown? {
        stop, phase := SettleCall(turn, retry, r, result, observedAt);
      } else {
        stop := None;
      }
    }

    /** Settle the call by its usage, as it was recorded. */
    method SettleCall(turn: nat, retry: nat, r: Reservation, result: TurnResult, observedAt: string)
      returns (stop: Option<Outcome>, ghost phase: Phase)
      requires Intact(Unsettled) && AtCall(turn, retry, r)
      requires Contacted(provider.contacts, from, CallsOf(store.db, attempt), Clear)
      requires UsageRecorded(r, result, observedAt)
      modifies store
      ensures Intact(phase)
      ensures stop.Some? ==> Settling(stop.value) && !stop.value.Closed?
                             && BudgetKept(stop.value)
                             && CurrentCounters().tools == old(CurrentCounters()).tools
      ensures stop.None? ==> phase.Clear? && InTurn(turn, retry + 1)
    {
      hide Evident, Bounded, Contacted, Listed, Replied, Admitted, Signed, CountersOf, CountsAt, Unused, Progressing,
           Gathered, Heard, EventsOf, BooksOf, InOrder, Issued, Apply, Cost, Within, Used, Appended, AtMost, Plus,
           Minus, Outrun, UsageRecorded;
      phase := Unsettled;
      ListedStill(observationIds, CallsOf(store.db, attempt));
      EvidentMeans(store.db, attempt, Unsettled);
      CountsWithin(CurrentCounters(), CallsOf(store.db, attempt), cfg.profile, attempt, turn, retry + 1);
      var error := PostUsage(turn, retry, r, result, observedAt);
      if error.Some? && error.value.Refusal? {
        return Some(Raised(StoreRefused)), phase;
      }
      phase := Clear;
      if * {
        return Some(Crashed), phase;
      }
      if error.Some? {
        return Some(Raised(UsageOverran)), phase;
      }
      return None, phase;
    }

    /** The recorded usage of the call is that of the result, or else its reservation. */
    ghost predicate UsageRecorded(r: Reservation, result: TurnResult, observedAt: string)
      reads store
    {
      && r.invocation.InvocationId?
      && var o := ObservationOf(cfg.price, Intent(r.invocation, r.invocation.turnId, r, ""), result, r, observedAt);
         Used(store.db.observations, r.invocation) == UsageOf(o, r.invocation)
    }

    /** Put the usage in place of the reservation. */
    method PostUsage(turn: nat, retry: nat, r: Reservation, result: TurnResult, observedAt: string)
      returns (error: Option<LedgerError>)
      requires Intact(Unsettled) && AtCall(turn, retry, r) && UsageRecorded(r, result, observedAt)
      requires Within(cfg.profile, CurrentCounters())
      modifies store
      ensures error.Some? && error.value.Refusal? ==> store.db == old(store.db)
      ensures error in {None, Some(UsageOverReservation)} ==>
                && Evident(store.db, attempt, Clear) && store.db == old(store.db).(events := store.db.events)
                && CallsOf(store.db, attempt) == old(CallsOf(store.db, attempt))
                && Unused(AttemptEvents(store.db, attempt), turn)
                && CurrentCounters() == old(CurrentCounters()).(sum := CurrentCounters().sum)
                && (Within(cfg.profile, CurrentCounters()) ==>
                      CountsAt(CurrentCounters(), CallsOf(store.db, attempt), cfg.profile, attempt, turn, retry + 1))
      ensures error.None? ==> Within(cfg.profile, CurrentCounters())
      ensures error == Some(UsageOverReservation) ==> Outrun(store.db, attempt)
      ensures error.None? || error.value.Refusal? || error == Some(UsageOverReservation)
    {
      hide Evident, Bounded, Contacted, Listed, Replied, Admitted, Signed, CountersOf, CountsAt, Unused, Progressing,
           Gathered, Heard, EventsOf, BooksOf, InOrder, Issued, Apply, Cost, Within, Used, Appended, AtMost, Plus,
           Minus, Outrun;
      ghost var before := store.db;
      EvidentMeans(before, attempt, Unsettled);
      var input := if result.available then result.input else r.input;
      var output := if result.available then result.output else r.output;
      ghost var p := Used(before.observations, r.invocation);
      assert p == Posting(input, output, input + output, Cost(cfg.price, input, output), retry);
      assert Issued(cfg.price, ledger.Events(), r);
      error := ledger.SettleProviderCall(r, input, output, result.latency, retry, observedAt);
      if error.Some? && error.value.Refusal? {
        return;
      }
      CallSettledUp(before, store.db, cfg.profile, attempt, turn, retry, p, result.latency, observedAt);
      if error.Some? {
        OutrunBy(before, store.db, attempt, r.invocation);
      }
    }

    /** The budget is exceeded only where a settlement outran its reservation, and then nothing
        follows it. */
    ghost predicate BudgetKept(out: Outcome)
      reads this, store
    {
      && (Within(cfg.profile, CurrentCounters())
          || (out in {Raised(UsageOverran), Crashed} && Outrun(store.db, attempt)))
      && (out == Raised(UsageOverran) ==> Outrun(store.db, attempt))
    }

    /** How the attempt may be left at any moment. */
    ghost predicate Stopped(out: Outcome, phase: Phase)
      reads this, store, provider
    {
      && Intact(phase) && Settling(out)
      && BudgetKept(out)
      && Repeats(recorded) <= RepeatLimit(cfg.profile)
      && Heard(evidence, recorded, cfg.sources, CurrentCounters().tools)
    }

    /** It closed because its call was refused. */
    ghost predicate RefusedFor(out: Outcome, why: Why)
      requires out.Closed?
      reads this, store
    {
      && why.CallRefused? && out.outcome == "budget_exhausted" && out.reason == "live_budget_exhausted"
      && CallOverLimits(cfg, CurrentCounters(), why)
    }

    /** What the last contact was: a call of the turn, and its reply. */
    ghost predicate JustReplied(turn: nat, calls: nat, reply: TurnResult)
      reads provider
    {
      && provider.contacts != []
      && provider.contacts[|provider.contacts| - 1] == Contact(InvocationId(TurnId(attempt, turn), calls), reply)
    }

    /** One call: reserved, intended, made, observed and settled. */
    method MakeCall(turn: nat, calls: nat, bytes: nat)
      returns (stop: Option<Outcome>, reply: TurnResult, ghost phase: Phase, ghost why: Why)
      requires InTurn(turn, calls) && turn <= cfg.profile.actionLimit
      modifies this`observationIds, store, provider
      ensures stop.Some? ==> Stopped(stop.value, phase) && Quiet(stop.value)
      ensures stop.None? ==> phase.Clear? && InTurn(turn, calls + 1) && JustReplied(turn, calls + 1, reply)
      ensures stop.Some? && stop.value.Closed? ==> RefusedFor(stop.value, why)
      ensures old(provider.contacts) <= provider.contacts
    {
      hide Evident, Bounded, Contacted, Listed, Replied, Admitted, Signed, CountersOf, CountsAt, Unused, Progressing,
           Gathered, Heard, EventsOf, BooksOf, InOrder, Issued, Apply, Cost, Within, Outrun;
      ProgressBounded(CurrentCounters().noProgress, recorded, previous, cfg.profile);
      StillHeard(evidence, recorded, cfg.sources, CurrentCounters().tools, turn, NeedsOperator);
      CountsWithin(CurrentCounters(), CallsOf(store.db, attempt), cfg.profile, attempt, turn, calls);
      var elapsed: nat := *;
      phase, reply, why := Clear, *, CallRefused(bytes, elapsed, calls);
      var r, intent;
      stop, r := ReserveCall(turn, calls, bytes, elapsed);
      if stop.Some? {
        return;
      }
      stop, intent, reply, phase := ContactProvider(turn, calls, r.value);
      CountsWithin(CurrentCounters(), CallsOf(store.db, attempt), cfg.profile, attempt, turn, calls + 1);
      StillHeard(evidence, recorded, cfg.sources, CurrentCounters().tools, turn, NeedsOperator);
      if stop.Some? {
        return;
      }
      stop, phase := ObserveCall(turn, calls, r.value, intent, reply);
    }

    /** Call the provider for this turn, again while it asks for a retry and retries are left. */
    method CallWithRetries(turn: nat, bytes: nat)
      returns (stop: Option<Outcome>, result: Option<TurnResult>, calls: nat, ghost phase: Phase, ghost why: Why)
      requires InTurn(turn, 0) && turn <= cfg.profile.actionLimit
      modifies this`observationIds, store, provider
      ensures stop.Some? ==> Stopped(stop.value, phase) && Quiet(stop.value)
      ensures stop.None? ==>
                && InTurn(turn, calls) && 0 < calls <= cfg.profile.retryLimit + 1
                && result.Some? && JustReplied(turn, calls, result.value)
                && (calls <= cfg.profile.retryLimit ==> !result.value.retryable)
      ensures stop.Some? && stop.value.Closed? ==> RefusedFor(stop.value, why)
      ensures old(provider.contacts) <= provider.contacts
    {
      hide Evident, Bounded, Contacted, Listed, Replied, Admitted, Signed, CountersOf, CountsAt, Unused, Progressing,
           Gathered, Heard, EventsOf, BooksOf, InOrder, Issued, Apply, Cost, Within, Outrun;
      result, calls, phase, stop, why := None, 0, Clear, None, Unsaid;
      while calls <= cfg.profile.retryLimit
        invariant InTurn(turn, calls) && phase.Clear? && stop.None? && calls <= cfg.profile.retryLimit + 1
        invariant old(provider.contacts) <= provider.contacts
        invariant calls > 0 ==> result.Some? && JustReplied(turn, calls, result.value)
        decreases cfg.profile.retryLimit + 1 - calls
      {
        var reply;
        stop, reply, phase, why := MakeCall(turn, calls, bytes);
        if stop.Some? {
          return;
        }
        result, calls := Some(reply), calls + 1;
        if !reply.retryable {
          return;
        }
      }
    }

    /** Count a use that cannot have been counted before. */
    method Consume(what: Consumption, key: Id, turn: nat) returns (error: Option<LedgerError>)
      requires Intact(Clear) && store.db.attempts[attempt].closing.None?
      requires UnusedFrom(AttemptEvents(store.db, attempt), what, turn)
      requires StepOf(key) == turn
      requires Within(cfg.profile, CurrentCounters())
      modifies store
      ensures Intact(Clear) && store.db.attempts[attempt].closing.None?
      ensures Within(cfg.profile, CurrentCounters())
      ensures CallsOf(store.db, attempt) == old(CallsOf(store.db, attempt))
      ensures error == Some(Exceeded) <==> CountOf(old(CurrentCounters()), what) + 1 > LimitOf(cfg.profile, what)
      ensures error.Some? ==> AttemptEvents(store.db, attempt) == old(AttemptEvents(store.db, attempt))
      ensures error.None? ==>
                && CurrentCounters().calls == old(CurrentCounters()).calls
                && CurrentCounters().sum == old(CurrentCounters()).sum
                && (forall w :: CountOf(CurrentCounters(), w)
                                == CountOf(old(CurrentCounters()), w) + if w == what then 1 else 0)
                && AttemptEvents(store.db, attempt)
                   == old(AttemptEvents(store.db, attempt)) + [ConsumedEvent(attempt, what, key, cfg.createdAt)]
    {
      hide Evident, Bounded, Contacted, Listed, Replied, Admitted, Signed, CountersOf, EventsOf, BooksOf, InOrder,
           Apply, Within, HasEvent, Appended;
      ghost var before := store.db;
      ghost var e := ConsumedEvent(attempt, what, key, cfg.createdAt);
      EvidentMeans(before, attempt, Clear);
      UsedUpTo(AttemptEvents(before, attempt), e, what, turn);
      error := ledger.ConsumeCount(what, key, cfg.createdAt);
      if error.None? {
        ConsumptionMovesOn(before, store.db, attempt, what, key, cfg.createdAt);
      }
    }

    /** The turn's action is counted. */
    ghost predicate Acting(turn: nat, progressTurn: nat)
      reads this, store, provider
    {
      && Intact(Clear) && store.db.attempts[attempt].closing.None? && signed == |recorded|
      && CountsAt(CurrentCounters(), CallsOf(store.db, attempt), cfg.profile, attempt, turn + 1, 0)
      && UnusedFrom(AttemptEvents(store.db, attempt), ActionUse, turn + 1)
      && UnusedFrom(AttemptEvents(store.db, attempt), ToolUse, turn)
      && UnusedFrom(AttemptEvents(store.db, attempt), NoProgress, progressTurn)
    }

    /** It is not yet handed to the workflow. */
    ghost predicate NotYetRecorded(turn: nat)
      reads this, store
    {
      Gathered(evidence, recorded, cfg.sources, CurrentCounters().tools, turn)
    }

    /** Count the action of the turn.  Its budget is never exceeded here: the loop over the
        turns has the same limit. */
    method CountAction(turn: nat, calls: nat, action: Id) returns (stop: Option<Outcome>)
      requires InTurn(turn, calls) && turn <= cfg.profile.actionLimit && StepOf(action) == turn
      modifies store
      ensures stop.Some? ==> Stopped(stop.value, Clear) && !stop.value.Closed?
      ensures stop.None? ==> Acting(turn, turn) && NotYetRecorded(turn)
                             && Progressing(CurrentCounters().noProgress, recorded, previous, cfg.profile)
    {
      hide Evident, Bounded, Contacted, Listed, Replied, Admitted, Signed, CountersOf, CountsAt, UnusedFrom,
           Progressing, Gathered, Heard, EventsOf, BooksOf, Within, Outrun;
      ghost var c, events := CurrentCounters(), AttemptEvents(store.db, attempt);
      CountsWithin(c, CallsOf(store.db, attempt), cfg.profile, attempt, turn, calls);
      ActionFits(c, CallsOf(store.db, attempt), cfg.profile, attempt, turn, calls);
      ProgressBounded(c.noProgress, recorded, previous, cfg.profile);
      StillHeard(evidence, recorded, cfg.sources, c.tools, turn, NeedsOperator);
      var error := Consume(ActionUse, action, turn);
      if error.Some? {
        if error.value.Exceeded? {
          return Some(Raised(ActionBudgetExceeded));
        }
        return Some(Raised(StoreRefused));
      }
      ghost var e := ConsumedEvent(attempt, ActionUse, action, cfg.createdAt);
      UsedUpTo(events, e, ActionUse, turn);
      UsedUpTo(events, e, ToolUse, turn);
      UsedUpTo(events, e, NoProgress, turn);
      ghost var c' := CurrentCounters();
      assert CountOf(c', ActionUse) == CountOf(c, ActionUse) + 1 && CountOf(c', NoProgress) == CountOf(c, NoProgress)
             && CountOf(c', ToolUse) == CountOf(c, ToolUse);
      if * {
        return Some(Crashed);
      }
      ActionCounted(c, c', CallsOf(store.db, attempt), cfg.profile, attempt, turn, calls);
      return None;
    }

    /** An action of the same type as the one before is counted, and may end the attempt. */
    method CountProgress(turn: nat, kind: ActionType) returns (stop: Option<Outcome>)
      requires Acting(turn, turn) && NotYetRecorded(turn)
      requires Progressing(CurrentCounters().noProgress, recorded, previous, cfg.profile)
      modifies store
      ensures stop.Some? ==> Stopped(stop.value, Clear) && Quiet(stop.value)
      ensures stop.Some? ==> StopsForNoProgress(stop.value) && (stop.value.Closed? ==> AtLimit(kind))
      ensures stop.None? ==>
                && !AtLimit(kind) && Acting(turn, turn + 1) && NotYetRecorded(turn)
                && Progressing(CurrentCounters().noProgress, recorded + [kind], Some(kind), cfg.profile)
    {
      hide Evident, Bounded, Contacted, Listed, Replied, Admitted, Signed, CountersOf, CountsAt, UnusedFrom, Gathered,
           Heard, EventsOf, BooksOf, Within, Repeats, RepeatsAtLimit, Progressing, Outrun;
      RepeatsDecide(CurrentCounters().noProgress, recorded, previous, cfg.profile, kind);
      if Some(kind) != previous {
        ghost var e := ConsumedEvent(attempt, NoProgress, TurnId(attempt, turn), cfg.createdAt);
        UsedUpTo(AttemptEvents(store.db, attempt), e, NoProgress, turn);
        ProgressMoved(CurrentCounters().noProgress, recorded, previous, cfg.profile, kind);
        return None;
      }
      stop := CountRepeat(turn, kind);
    }

    ghost predicate AtLimit(kind: ActionType)
      reads this`recorded
    {
      RepeatsAtLimit(cfg.profile, recorded, kind)
    }

    predicate StopsForNoProgress(out: Outcome) {
      out.Closed? ==> out.outcome == "needs_operator" && out.reason == "no_progress_limit_reached"
    }

    method StopForNoProgress() returns (stop: Option<Outcome>)
      requires Intact(Clear) && store.db.attempts[attempt].closing.None?
      requires Within(cfg.profile, CurrentCounters()) && Repeats(recorded) <= RepeatLimit(cfg.profile)
      requires Heard(evidence, recorded, cfg.sources, CurrentCounters().tools)
      modifies store
      ensures stop.Some? && Stopped(stop.value, Clear) && Quiet(stop.value) && StopsForNoProgress(stop.value)
    {
      hide Evident, Bounded, Contacted, Listed, Replied, Admitted, Signed, CountersOf, EventsOf, BooksOf, Within,
           Repeats, Outrun;
      var out := CloseResult("needs_operator", "no_progress_limit_reached");
      return Some(out);
    }

    method CountRepeat(turn: nat, kind: ActionType) returns (stop: Option<Outcome>)
      requires Acting(turn, turn) && NotYetRecorded(turn)
      requires Progressing(CurrentCounters().noProgress, recorded, previous, cfg.profile)
      requires previous == Some(kind)
      modifies store
      ensures stop.Some? ==> Stopped(stop.value, Clear) && Quiet(stop.value)
      ensures stop.Some? ==> StopsForNoProgress(stop.value) && (stop.value.Closed? ==> AtLimit(kind))
      ensures stop.None? ==>
                && !AtLimit(kind) && Acting(turn, turn + 1) && NotYetRecorded(turn)
                && Progressing(CurrentCounters().noProgress, recorded + [kind], Some(kind), cfg.profile)
    {
      hide Evident, Bounded, Contacted, Listed, Replied, Admitted, Signed, CountersOf, CountsAt, UnusedFrom, Gathered,
           Heard, EventsOf, BooksOf, Within, Repeats, RepeatsAtLimit, Progressing, Outrun;
      ghost var c, events := CurrentCounters(), AttemptEvents(store.db, attempt);
      CountsWithin(c, CallsOf(store.db, attempt), cfg.profile, attempt, turn + 1, 0);
      ProgressBounded(c.noProgress, recorded, previous, cfg.profile);
      RepeatsDecide(c.noProgress, recorded, previous, cfg.profile, kind);
      StillHeard(evidence, recorded, cfg.sources, c.tools, turn, kind);
      var key := TurnId(attempt, turn);
      var error := Consume(NoProgress, key, turn);
      if error.Some? {
        if error.value.Exceeded? {
          stop := StopForNoProgress();
          return;
        }
        return Some(Raised(StoreRefused));
      }
      ghost var c' := CurrentCounters();
      assert CountOf(c', ActionUse) == CountOf(c, ActionUse) && CountOf(c', NoProgress) == CountOf(c, NoProgress) + 1
             && CountOf(c', ToolUse) == CountOf(c, ToolUse);
      RepeatUsed(events, ConsumedEvent(attempt, NoProgress, key, cfg.createdAt), turn);
      OtherCounted(c, c', CallsOf(store.db, attempt), cfg.profile, attempt, turn + 1, 0);
      stop := StopAtLimit(turn, kind);
    }

    /** A repeat that was counted ends the attempt one below the limit. */
    method StopAtLimit(turn: nat, kind: ActionType) returns (stop: Option<Outcome>)
      requires Acting(turn, turn + 1) && NotYetRecorded(turn)
      requires Progressing(CurrentCounters().noProgress - 1, recorded, previous, cfg.profile)
      requires previous == Some(kind)
      modifies store
      ensures stop.Some? ==> Stopped(stop.value, Clear) && Quiet(stop.value)
      ensures stop.Some? ==> StopsForNoProgress(stop.value) && (stop.value.Closed? ==> AtLimit(kind))
      ensures stop.None? ==>
                && !AtLimit(kind) && Acting(turn, turn + 1) && NotYetRecorded(turn)
                && Progressing(CurrentCounters().noProgress, recorded + [kind], Some(kind), cfg.profile)
    {
      hide Evident, Bounded, Contacted, Listed, Replied, Admitted, Signed, CountersOf, CountsAt, UnusedFrom, Gathered,
           Heard, EventsOf, BooksOf, Within, Repeats, RepeatsAtLimit, Progressing, Outrun;
      CountsWithin(CurrentCounters(), CallsOf(store.db, attempt), cfg.profile, attempt, turn + 1, 0);
      ProgressBounded(CurrentCounters().noProgress - 1, recorded, previous, cfg.profile);
      ProgressMoved(CurrentCounters().noProgress - 1, recorded, previous, cfg.profile, kind);
      RepeatsDecide(CurrentCounters().noProgress - 1, recorded, previous, cfg.profile, kind);
      StillHeard(evidence, recorded, cfg.sources, CurrentCounters().tools, turn, kind);
      if * {
        return Some(Crashed);
      }
      EvidentMeans(store.db, attempt, Clear);
      var snapshot := ledger.Snapshot();
      if snapshot.value.noProgress >= (if cfg.profile.noProgressLimit > 2 then cfg.profile.noProgressLimit - 1 else 1) {
        stop := StopForNoProgress();
        return;
      }
      return None;
    }

    /** The turn's action is with the workflow. */
    ghost predicate Acted(turn: nat)
      reads this, store, provider
    {
      && Acting(turn, turn + 1) && Progressing(CurrentCounters().noProgress, recorded, previous, cfg.profile)
      && recorded != []
      && Gathered(evidence, recorded[..|recorded| - 1], cfg.sources, CurrentCounters().tools, turn)
    }

    /** Count the proposed action, hand it to the workflow, and carry it out. */
    method TakeAction(turn: nat, calls: nat, proposal: Proposal)
      returns (stop: Option<Outcome>, ghost cited: Option<seq<Id>>)
      requires InTurn(turn, calls) && turn <= cfg.profile.actionLimit
      modifies this`evidence, this`recorded, this`previous, this`signed, store
      ensures stop.Some? ==>
                Stopped(stop.value, Clear) && Ends(stop.value, cited, InvocationId(TurnId(attempt, turn), calls))
      ensures stop.None? ==> InTurn(turn + 1, 0) && LastIs(proposal.kind)
      ensures recorded == old(recorded) || recorded == old(recorded) + [proposal.kind]
      ensures AllRead(old(recorded), cfg.sources)
      ensures stop.None? ==> ActionVerdict(cfg, old(recorded), proposal) == GoesOn
      ensures stop.Some? ==> Obeys(stop.value, ActionVerdict(cfg, old(recorded), proposal))
    {
      hide Evident, Bounded, Contacted, Listed, Replied, Admitted, Signed, CountersOf, CountsAt, UnusedFrom, Gathered,
           Heard, EventsOf, BooksOf, Within, Repeats, Progressing, Apply, CandidateBound, Outrun;
      cited := None;
      GatheredCollected(evidence, recorded, cfg.sources, CurrentCounters().tools, turn);
      var kind := proposal.kind;
      var action := ActionDigest(turn, kind, proposal.digest);
      ProgressBounded(CurrentCounters().noProgress, recorded, previous, cfg.profile);
      stop := CountAction(turn, calls, action);
      if stop.Some? {
        return;
      }
      stop := CountProgress(turn, kind);
      if stop.Some? {
        return;
      }
      stop := HandOn(turn, kind, action);
      if stop.Some? {
        return;
      }
      stop, cited := CarryOut(turn, calls, proposal, action);
    }

    /** Record the action with its turn, then hand it to the workflow. */
    method HandOn(turn: nat, kind: ActionType, action: Id) returns (stop: Option<Outcome>)
      requires Acting(turn, turn + 1) && NotYetRecorded(turn)
      requires Progressing(CurrentCounters().noProgress, recorded + [kind], Some(kind), cfg.profile)
      requires Repeats(recorded) <= RepeatLimit(cfg.profile)
      modifies this`recorded, this`previous, this`signed, store
      ensures recorded == old(recorded) || recorded == old(recorded) + [kind]
      ensures stop in {None, Some(Crashed), Some(Raised(StoreRefused))}
      ensures stop.Some? ==> Stopped(stop.value, Clear)
      ensures stop.None? ==> Acted(turn) && LastIs(kind) && recorded == old(recorded) + [kind]
    {
      hide Evident, Bounded, Contacted, Listed, Replied, Admitted, Signed, CountersOf, CountsAt, UnusedFrom, Gathered,
           Heard, EventsOf, BooksOf, Within, Repeats, Progressing, Apply, CandidateBound, Outrun;
      CountsWithin(CurrentCounters(), CallsOf(store.db, attempt), cfg.profile, attempt, turn + 1, 0);
      ProgressBounded(CurrentCounters().noProgress, recorded + [kind], Some(kind), cfg.profile);
      StillHeard(evidence, recorded, cfg.sources, CurrentCounters().tools, turn, kind);
      previous := Some(kind);
      ghost var before := store.db;
      var error := store.RecordNormalizedAction(TurnId(attempt, turn), action);
      if error.Some? {
        return Some(Raised(StoreRefused));
      }
      OtherRowsMoveOn(before, store.db, attempt, RecordAction(TurnId(attempt, turn), action));
      TurnNumber(evidence, recorded, cfg.sources, CurrentCounters().tools, turn);
      SignedOnce(before, turnsBefore, attempt, signed, action);
      signed := signed + 1;
      if * {
        return Some(Crashed);
      }
      recorded := recorded + [kind];
      assert recorded[..|recorded| - 1] == old(recorded);
      if * {
        return Some(Crashed);
      }
      return None;
    }

    method CarryOut(turn: nat, calls: nat, proposal: Proposal, action: Id)
      returns (stop: Option<Outcome>, ghost cited: Option<seq<Id>>)
      requires Acted(turn) && LastIs(proposal.kind)
      modifies this`evidence, store
      ensures stop.Some? ==>
                Stopped(stop.value, Clear) && Ends(stop.value, cited, InvocationId(TurnId(attempt, turn), calls))
      ensures AllRead(recorded[..|recorded| - 1], cfg.sources)
      ensures stop.None? ==>
                && InTurn(turn + 1, 0)
                && ProposalVerdict(cfg, recorded[..|recorded| - 1], proposal) == GoesOn
      ensures stop.Some? ==> Obeys(stop.value, ProposalVerdict(cfg, recorded[..|recorded| - 1], proposal))
    {
      hide Evident, Bounded, Contacted, Listed, Replied, Admitted, Signed, CountersOf, CountsAt, UnusedFrom, Gathered,
           Heard, EventsOf, BooksOf, Within, Repeats, Progressing, Apply, CandidateBound, Outrun;
      cited := None;
      CountsWithin(CurrentCounters(), CallsOf(store.db, attempt), cfg.profile, attempt, turn + 1, 0);
      ProgressBounded(CurrentCounters().noProgress, recorded, previous, cfg.profile);
      ActedHeard(turn, proposal.kind);
      GatheredCollected(evidence, recorded[..|recorded| - 1], cfg.sources, CurrentCounters().tools, turn);
      match proposal.kind {
        case Read(tool) =>
          stop := ReadTool(turn, tool);
        case NeedsInformation =>
          var out := CloseResult("needs_information", proposal.reason);
          stop := Some(out);
        case NeedsOperator =>
          var out := CloseResult("needs_operator", proposal.reason);
          stop := Some(out);
        case ResponseCandidate =>
          stop, cited := Answer(turn, InvocationId(TurnId(attempt, turn), calls), proposal, action);
      }
    }

    method ReadTool(turn: nat, tool: Tool) returns (stop: Option<Outcome>)
      requires Acted(turn) && LastIs(Read(tool))
      modifies this`evidence, store
      ensures stop.Some? ==> Stopped(stop.value, Clear) && Explained(stop.value)
      ensures stop.None? ==> InTurn(turn + 1, 0) && ReadVerdict(cfg, |recorded| - 1, tool) == GoesOn
      ensures stop.Some? ==> Obeys(stop.value, ReadVerdict(cfg, |recorded| - 1, tool))
      ensures tool !in cfg.sources ==> stop == Some(Raised(SourceMissing))
      ensures stop.None? || (stop.value.Closed? && stop.value.outcome == "tool_timeout") ==>
                && tool in cfg.sources
                && evidence
                   == old(evidence) + [Evidence(EvidenceId(ToolRequestId(turn, tool)), cfg.sources[tool].content)]
                && CurrentCounters().tools == old(CurrentCounters()).tools + 1
    {
      hide Evident, Bounded, Contacted, Listed, Replied, Admitted, Signed, CountersOf, CountsAt, UnusedFrom, Gathered,
           Heard, EventsOf, BooksOf, Within, Repeats, Progressing, Outrun, CandidateBound, Collected;
      ghost var c, events := CurrentCounters(), AttemptEvents(store.db, attempt);
      CountsWithin(c, CallsOf(store.db, attempt), cfg.profile, attempt, turn + 1, 0);
      ProgressBounded(c.noProgress, recorded, previous, cfg.profile);
      ActedHeard(turn, Read(tool));
      if tool !in cfg.sources {
        return Some(Raised(SourceMissing));
      }
      TurnNumber(evidence, recorded[..|recorded| - 1], cfg.sources, c.tools, turn);
      var request := ToolRequestId(turn, tool);
      ghost var e := ConsumedEvent(attempt, ToolUse, request, cfg.createdAt);
      var error := Consume(ToolUse, request, turn);
      if error.Some? {
        if error.value.Exceeded? {
          var out := CloseResult("budget_exhausted", "tool_budget_exhausted");
          return Some(out);
        }
        return Some(Raised(StoreRefused));
      }
      ReadUsed(events, e, turn);
      ghost var c' := CurrentCounters();
      assert CountOf(c', ActionUse) == CountOf(c, ActionUse) && CountOf(c', NoProgress) == CountOf(c, NoProgress)
             && CountOf(c', ToolUse) == CountOf(c, ToolUse) + 1;
      OtherCounted(c, c', CallsOf(store.db, attempt), cfg.profile, attempt, turn + 1, 0);
      StillHeard(evidence, recorded[..|recorded| - 1], cfg.sources, c.tools, turn, Read(tool));
      assert recorded == recorded[..|recorded| - 1] + [Read(tool)];
      if * {
        return Some(Crashed);
      }
      stop := Gather(turn, tool);
    }

    /** The content of a counted read becomes evidence. */
    method Gather(turn: nat, tool: Tool) returns (stop: Option<Outcome>)
      requires Intact(Clear) && store.db.attempts[attempt].closing.None? && signed == |recorded|
      requires CountsAt(CurrentCounters(), CallsOf(store.db, attempt), cfg.profile, attempt, turn + 1, 0)
      requires Unused(AttemptEvents(store.db, attempt), turn + 1)
      requires Progressing(CurrentCounters().noProgress, recorded, previous, cfg.profile)
      requires LastIs(Read(tool)) && tool in cfg.sources
      requires Gathered(evidence, recorded[..|recorded| - 1], cfg.sources, CurrentCounters().tools - 1, turn)
      modifies this`evidence, store
      ensures stop.Some? ==> Stopped(stop.value, Clear) && Explained(stop.value)
      ensures stop.None? ==> InTurn(turn + 1, 0) && !cfg.sources[tool].timedOut
      ensures stop.Some? && stop.value.Closed? ==>
                && cfg.sources[tool].timedOut
                && stop.value.outcome == "tool_timeout" && stop.value.reason == "declared_tool_timeout"
      ensures stop.None? || stop.value.Closed? ==>
                && CurrentCounters().tools == old(CurrentCounters()).tools
                && evidence
                   == old(evidence) + [Evidence(EvidenceId(ToolRequestId(turn, tool)), cfg.sources[tool].content)]
    {
      hide Evident, Bounded, Contacted, Listed, Replied, Admitted, Signed, CountersOf, CountsAt, Unused, Gathered,
           Heard, EventsOf, BooksOf, Within, Repeats, Progressing, Outrun, CandidateBound, Collected;
      ghost var front, tools := recorded[..|recorded| - 1], CurrentCounters().tools;
      var item := Evidence(EvidenceId(ToolRequestId(turn, tool)), cfg.sources[tool].content);
      assert recorded == front + [Read(tool)];
      ReadCollected(evidence, front, cfg.sources, tools - 1, turn, tool);
      StillHeard(evidence + [item], recorded, cfg.sources, tools, turn + 1, NeedsOperator);
      CountsWithin(CurrentCounters(), CallsOf(store.db, attempt), cfg.profile, attempt, turn + 1, 0);
      ProgressBounded(CurrentCounters().noProgress, recorded, previous, cfg.profile);
      evidence := evidence + [item];
      if * {
        return Some(Crashed);
      }
      if cfg.sources[tool].timedOut {
        var out := CloseResult("tool_timeout", "declared_tool_timeout");
        return Some(out);
      }
      return None;
    }

    lemma ActedHeard(turn: nat, kind: ActionType)
      requires Acted(turn) && LastIs(kind)
      ensures Heard(evidence, recorded, cfg.sources, CurrentCounters().tools)
    {
      hide Heard, Gathered, Acting, CountersOf, Progressing;
      var front := recorded[..|recorded| - 1];
      assert recorded == front + [kind];
      StillHeard(evidence, front, cfg.sources, CurrentCounters().tools, turn, kind);
    }

    /** It ended before the turn's action was handed on. */
    predicate Quiet(out: Outcome) {
      out.Closed? ==>
        && out.outcome != "response_ready" && out.outcome != "policy_denied" && out.outcome != "needs_information"
        && out.outcome != "tool_timeout"
        && (out.outcome == "needs_operator" ==> out.reason == "no_progress_limit_reached")
    }

    predicate LastIs(kind: ActionType)
      reads this`recorded
    {
      recorded != [] && recorded[|recorded| - 1] == kind
    }

    /** How an attempt ends is what its last action asked for. */
    predicate Explained(out: Outcome)
      reads this`recorded
    {
      out.Closed? ==>
        && (out.outcome == "needs_information" ==> LastIs(NeedsInformation))
        && (out.outcome == "response_ready" || out.outcome == "policy_denied" ==> LastIs(ResponseCandidate))
        && (out.outcome == "needs_operator" ==>
              LastIs(NeedsOperator) || LastIs(ResponseCandidate) || out.reason == "no_progress_limit_reached")
        && (out.outcome == "tool_timeout" ==>
              exists tool :: tool in cfg.sources && LastIs(Read(tool)) && cfg.sources[tool].timedOut)
    }

    ghost predicate Ends(out: Outcome, cited: Option<seq<Id>>, invocation: Id)
      reads this, store
    {
      Explained(out)
      && (out.Closed? && out.outcome == "response_ready" ==>
            && cited.Some? && CandidateBound(store.db, attempt, evidence, cited.value, invocation)
            && Collected(evidence, recorded[..|recorded| - 1], cfg.sources, CurrentCounters().tools))
    }

    /** Bind a draft to the evidence it cites, and have it verified. */
    method Answer(turn: nat, invocation: Id, proposal: Proposal, action: Id)
      returns (stop: Option<Outcome>, ghost cited: Option<seq<Id>>)
      requires Acted(turn) && LastIs(ResponseCandidate)
      modifies store
      ensures stop.Some? && Stopped(stop.value, Clear) && Ends(stop.value, cited, invocation)
      ensures AllRead(recorded[..|recorded| - 1], cfg.sources)
      ensures Obeys(stop.value, DraftVerdict(cfg, proposal, ReadEvidence(recorded[..|recorded| - 1], cfg.sources)))
    {
      hide Evident, Bounded, Contacted, Listed, Replied, Admitted, Signed, CountersOf, CountsAt, UnusedFrom, Gathered,
           Heard, EventsOf, BooksOf, Within, Repeats, Progressing, Apply, CandidateBound, CitesAll, Outrun,
           Contents, ReadEvidence, Collected, AllRead, Unused;
      CountsWithin(CurrentCounters(), CallsOf(store.db, attempt), cfg.profile, attempt, turn + 1, 0);
      ProgressBounded(CurrentCounters().noProgress, recorded, previous, cfg.profile);
      cited := None;
      ActedHeard(turn, ResponseCandidate);
      ghost var read := recorded[..|recorded| - 1];
      GatheredCollected(evidence, read, cfg.sources, CurrentCounters().tools, turn);
      var problem := DraftProblem(proposal, read);
      if problem.Some? {
        var out := CloseResult("policy_denied", problem.value);
        return Some(out), cited;
      }
      cited := proposal.references;
      stop := BindCandidate(invocation, proposal.draft.value.content, action, cited.value);
      if stop.Some? {
        return;
      }
      var check := cfg.verifier(proposal.draft.value.content, Contents(evidence));
      ghost var bound := store.db;
      var out := CloseResult(if check.passed then "response_ready" else "needs_operator", check.reason);
      StillBound(bound, store.db, attempt, evidence, cited.value, invocation);
      return Some(out), cited;
    }

    /** Store the draft and its binding. */
    method BindCandidate(invocation: Id, content: Hash, action: Id, ghost cited: seq<Id>)
      returns (stop: Option<Outcome>)
      requires Intact(Clear) && store.db.attempts[attempt].closing.None?
      requires CitesAll(cited, evidence)
      modifies store
      ensures Intact(Clear) && store.db.attempts[attempt].closing.None?
      ensures AttemptEvents(store.db, attempt) == old(AttemptEvents(store.db, attempt))
      ensures stop in {None, Some(Crashed), Some(Raised(StoreRefused))}
      ensures stop.None? ==> CandidateBound(store.db, attempt, evidence, cited, invocation)
    {
      hide Evident, Bounded, Contacted, Listed, Replied, Admitted, Signed, EventsOf, BooksOf, Apply, CitesAll;
      var contents := Contents(evidence);
      var artifact := Artifact(ArtifactId(attempt, content), attempt, invocation, content, contents);
      ghost var before := store.db;
      EvidentMeans(before, attempt, Clear);
      var error := store.AppendDraftArtifact(artifact);
      if error.Some? {
        return Some(Raised(StoreRefused));
      }
      OtherRowsMoveOn(before, store.db, attempt, AddArtifact(artifact));
      ArtifactStored(before, artifact);
      if * {
        return Some(Crashed);
      }
      var observation := ObservationId(invocation);
      var binding := Binding(BindingDigest(artifact.id, observation, action, contents), attempt, artifact.id,
                             invocation, observation, action, content, contents);
      before := store.db;
      error := store.AppendCandidateBinding(binding);
      if error.Some? {
        return Some(Raised(StoreRefused));
      }
      OtherRowsMoveOn(before, store.db, attempt, AddBinding(binding));
      BindingStored(before, binding);
      assert BindingOf(store.db, binding.id, attempt, evidence, invocation);
      if * {
        return Some(Crashed);
      }
      return None;
    }

    /** Why a draft cannot become a candidate. */
    method DraftProblem(proposal: Proposal, ghost read: seq<ActionType>) returns (problem: Option<string>)
      requires AllRead(read, cfg.sources) && evidence == ReadEvidence(read, cfg.sources)
      ensures problem.None? <==> proposal.draft.Some? && proposal.references.Some?
                                 && CitesAll(proposal.references.value, evidence) && proposal.draft.value.safe
      ensures problem.Some? ==> DraftVerdict(cfg, proposal, evidence) == EndsWith("policy_denied", problem.value)
    {
      if proposal.draft.None? || proposal.references.None? {
        return Some("response_draft_invalid");
      }
      var cited := proposal.references.value;
      SetAndLengthDecide(cited, evidence, read, cfg.sources);
      if (set x | x in cited) != (set x | x in References(evidence)) || |cited| != |evidence| {
        return Some("response_draft_evidence_invalid");
      }
      if !proposal.draft.value.safe {
        return Some("response_draft_redaction_failed");
      }
      return None;
    }

    lemma StatusNameQuiet(status: Status)
      ensures StatusName(status) !in
              {"response_ready", "policy_denied", "needs_information", "needs_operator", "tool_timeout"}
    {
    }

    ghost function LastReply(): TurnResult
      requires provider.contacts != []
      reads provider
    {
      provider.contacts[|provider.contacts| - 1].result
    }

    /** An attempt closed for want of turns, for a refused call, or as its last reply decided
        behind these actions. */
    ghost predicate Concluded(out: Outcome, actions: seq<ActionType>, why: Why)
      reads this, store, provider
    {
      out.Closed? ==>
        && AllRead(actions, cfg.sources) && actions <= recorded
        && match why
           case Unsaid => false
           case AllTurnsTaken =>
             && out.outcome == "budget_exhausted" && out.reason == "action_budget_exhausted"
             && recorded == actions && |actions| == cfg.profile.actionLimit == out.budget.actions
           case CallRefused(_, _, _) =>
             |actions| < cfg.profile.actionLimit && recorded == actions && RefusedFor(out, why)
           case Judged(reply) =>
             && |actions| < cfg.profile.actionLimit && |recorded| <= |actions| + 1
             && provider.contacts != [] && reply == LastReply() && Obeys(out, ReplyVerdict(cfg, actions, reply))
    }

    /** One turn: its row, its calls, its action. */
    method TakeTurn(turn: nat)
      returns (stop: Option<Outcome>, ghost phase: Phase, ghost cited: Option<seq<Id>>, ghost invocation: Id,
               ghost why: Why)
      requires InTurn(turn, 0) && turn <= cfg.profile.actionLimit
      modifies this`evidence, this`recorded, this`previous, this`signed, this`observationIds, store, provider
      ensures stop.Some? ==> Stopped(stop.value, phase) && Ends(stop.value, cited, invocation)
      ensures stop.None? ==> InTurn(turn + 1, 0)
      // An action is handed to the workflow only if it is what the last contact proposed.
      ensures recorded == old(recorded)
              || (provider.contacts != []
                  && var reply := provider.contacts[|provider.contacts| - 1].result;
                     && reply.status.Completed? && reply.proposal.Some?
                     && recorded == old(recorded) + [reply.proposal.value.kind])
      // What the last contact replied decides.
      ensures |old(recorded)| + 1 == turn && AllRead(old(recorded), cfg.sources)
      ensures stop.None? ==> provider.contacts != [] && ReplyVerdict(cfg, old(recorded), LastReply()) == GoesOn
      ensures stop.Some? ==> Concluded(stop.value, old(recorded), why)
    {
      hide Evident, Bounded, Contacted, Listed, Replied, Admitted, Signed, CountersOf, CountsAt, Unused, Gathered,
           Heard, EventsOf, BooksOf, Within, Repeats, Progressing, Apply, Outrun, CandidateBound, Collected;
      phase, cited, invocation, why := Clear, None, TurnId(attempt, turn), Unsaid;
      GatheredCollected(evidence, recorded, cfg.sources, CurrentCounters().tools, turn);
      TurnNumber(evidence, recorded, cfg.sources, CurrentCounters().tools, turn);
      StillHeard(evidence, recorded, cfg.sources, CurrentCounters().tools, turn, NeedsOperator);
      CountsWithin(CurrentCounters(), CallsOf(store.db, attempt), cfg.profile, attempt, turn, 0);
      ProgressBounded(CurrentCounters().noProgress, recorded, previous, cfg.profile);
      ghost var before := store.db;
      var error := store.AppendTurn(attempt, turn, cfg.createdAt);
      if error.Some? {
        return Some(Raised(StoreRefused)), phase, cited, invocation, why;
      }
      OtherRowsMoveOn(before, store.db, attempt, AddTurn(attempt, turn, cfg.createdAt));
      TurnSignedLater(before, turnsBefore, attempt, signed, cfg.createdAt);
      if * {
        return Some(Crashed), phase, cited, invocation, why;
      }
      var bytes: nat := *;
      var result, calls;
      stop, result, calls, phase, why := CallWithRetries(turn, bytes);
      if stop.Some? {
        return;
      }
      stop, cited := Judge(turn, calls, result.value);
      phase, invocation, why := Clear, InvocationId(TurnId(attempt, turn), calls), Judged(result.value);
    }

    /** End the attempt, or take the action that the last reply proposes. */
    method Judge(turn: nat, calls: nat, reply: TurnResult)
      returns (stop: Option<Outcome>, ghost cited: Option<seq<Id>>)
      requires InTurn(turn, calls) && turn <= cfg.profile.actionLimit
      modifies this`evidence, this`recorded, this`previous, this`signed, store
      ensures stop.Some? ==>
                Stopped(stop.value, Clear) && Ends(stop.value, cited, InvocationId(TurnId(attempt, turn), calls))
      ensures stop.None? ==> InTurn(turn + 1, 0)
      ensures recorded == old(recorded)
              || (reply.status.Completed? && reply.proposal.Some?
                  && recorded == old(recorded) + [reply.proposal.value.kind])
      ensures AllRead(old(recorded), cfg.sources)
      ensures stop.None? ==> ReplyVerdict(cfg, old(recorded), reply) == GoesOn
      ensures stop.Some? ==> Obeys(stop.value, ReplyVerdict(cfg, old(recorded), reply))
    {
      hide Evident, Bounded, Contacted, Listed, Replied, Admitted, Signed, CountersOf, CountsAt, Unused, Gathered,
           Heard, EventsOf, BooksOf, Within, Repeats, Progressing, Apply, Outrun, CandidateBound, Collected,
           ActionVerdict, AllRead;
      cited := None;
      GatheredCollected(evidence, recorded, cfg.sources, CurrentCounters().tools, turn);
      CollectedReads(evidence, recorded, cfg.sources, CurrentCounters().tools);
      StillHeard(evidence, recorded, cfg.sources, CurrentCounters().tools, turn, NeedsOperator);
      CountsWithin(CurrentCounters(), CallsOf(store.db, attempt), cfg.profile, attempt, turn, calls);
      ProgressBounded(CurrentCounters().noProgress, recorded, previous, cfg.profile);
      if !reply.status.Completed? || reply.proposal.None? {
        var reason := if reply.classification in {None, Some("")} then StatusName(reply.status)
                      else reply.classification.value;
        var out := CloseResult(StatusName(reply.status), reason);
        StatusNameQuiet(reply.status);
        return Some(out), cited;
      }
      if cfg.exhaustionInjected {
        var out := CloseResult("budget_exhausted", "fault_injected_budget_exhaustion");
        return Some(out), cited;
      }
      stop, cited := TakeAction(turn, calls, reply.proposal.value);
    }

    /** Turn after turn, while actions are left. */
    method TakeTurns()
      returns (out: Outcome, ghost phase: Phase, ghost cited: Option<seq<Id>>, ghost invocation: Id,
               ghost actions: seq<ActionType>, ghost why: Why)
      requires InTurn(1, 0)
      modifies this`evidence, this`recorded, this`previous, this`signed, this`observationIds, store, provider
      ensures Stopped(out, phase) && Ends(out, cited, invocation) && Concluded(out, actions, why)
    {
      hide Evident, Bounded, Contacted, Listed, Replied, Admitted, Signed, CountersOf, CountsAt, Unused, Gathered,
           Heard, EventsOf, BooksOf, Within, Repeats, Progressing, Apply, Outrun, CandidateBound, Collected,
           ReplyVerdict;
      phase, cited, invocation, actions, why := Clear, None, attempt, [], Unsaid;
      var turn, stop := 1, None;
      while turn <= cfg.profile.actionLimit
        invariant 1 <= turn <= cfg.profile.actionLimit + 1
        invariant InTurn(turn, 0) && phase.Clear? && cited.None?
        decreases cfg.profile.actionLimit + 1 - turn
      {
        actions := recorded;
        stop, phase, cited, invocation, why := TakeTurn(turn);
        if stop.Some? {
          return stop.value, phase, cited, invocation, actions, why;
        }
        turn, phase, cited := turn + 1, Clear, None;
      }
      StillHeard(evidence, recorded, cfg.sources, CurrentCounters().tools, turn, NeedsOperator);
      CountsWithin(CurrentCounters(), CallsOf(store.db, attempt), cfg.profile, attempt, turn, 0);
      ProgressBounded(CurrentCounters().noProgress, recorded, previous, cfg.profile);
      actions, why := recorded, AllTurnsTaken;
      GatheredCollected(evidence, recorded, cfg.sources, CurrentCounters().tools, turn);
      TurnNumber(evidence, recorded, cfg.sources, CurrentCounters().tools, turn);
      CollectedReads(evidence, recorded, cfg.sources, CurrentCounters().tools);
      ActionsTaken(CurrentCounters(), CallsOf(store.db, attempt), cfg.profile, attempt, turn);
      out := CloseResult("budget_exhausted", "action_budget_exhausted");
    }

    /** An attempt in a store that holds nothing of it yet. */
    method Run()
      returns (out: Outcome, ghost phase: Phase, ghost cited: Option<seq<Id>>, ghost invocation: Id,
               ghost actions: seq<ActionType>, ghost why: Why)
      requires Wired() && Sound(store.db) && Untouched(store.db, attempt)
      modifies this, store, provider
      ensures from == |old(provider.contacts)| && turnsBefore == old(store.db.turns)
      ensures || (out == Raised(StoreRefused) && store.db == old(store.db)
                  && provider.contacts == old(provider.contacts) && recorded == [])
              || (Stopped(out, phase) && Ends(out, cited, invocation) && Concluded(out, actions, why))
    {
      hide Evident, Bounded, Contacted, Listed, Replied, Admitted, Signed, CountersOf, CountsAt, Unused, Gathered,
           Heard, EventsOf, BooksOf, Within, Repeats, Progressing, Apply, Untouched, Sound, Outrun, CandidateBound,
           Collected, ReplyVerdict;
      phase, cited, invocation, actions, why := Clear, None, attempt, [], Unsaid;
      evidence, recorded, previous, observationIds := [], [], None, [];
      from, turnsBefore, signed := |provider.contacts|, store.db.turns, 0;
      ghost var before := store.db;
      var error := store.AppendAttempt(cfg.session, cfg.task, cfg.index, cfg.createdAt);
      if error.Some? {
        return Raised(StoreRefused), phase, cited, invocation, actions, why;
      }
      AttemptOpened(before, store.db, cfg.session, cfg.task, cfg.index, cfg.createdAt);
      NoneSigned(before.turns, attempt);
      FirstTurn(cfg.profile, attempt, store.db, cfg.price, provider.contacts, cfg.sources);
      StillHeard(evidence, recorded, cfg.sources, CurrentCounters().tools, 1, NeedsOperator);
      CountsWithin(CurrentCounters(), CallsOf(store.db, attempt), cfg.profile, attempt, 1, 0);
      ProgressBounded(CurrentCounters().noProgress, recorded, previous, cfg.profile);
      if * {
        return Crashed, phase, cited, invocation, actions, why;
      }
      out, phase, cited, invocation, actions, why := TakeTurns();
    }
  }

  lemma FirstTurn(profile: Profile, attempt: Id, db: Database, price: Price, contacts: seq<Contact>,
                  sources: map<Tool, Source>)
    ensures CountsAt(CountersOf([]), [], profile, attempt, 1, 0) && Unused([], 1)
    ensures Gathered([], [], sources, CountersOf([]).tools, 1)
    ensures Progressing(CountersOf([]).noProgress, [], None, profile)
    ensures Bounded([], profile) && Contacted(contacts, |contacts|, [], Clear) && Listed([], [], Clear)
    ensures Admitted(db.intents, profile, contacts, |contacts|)
    ensures Replied(db.intents, db.observations, price, contacts, |contacts|)
  {
  }
}
