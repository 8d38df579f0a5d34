/** What a turn of the QQ assist runtime means: what it charges, when a later session may
    pass it, and what state of the durable journal every session must leave behind. */
module QQModelTurns {
  import opened Common
  import opened Money
  import opened QQModelJournal

  datatype Source = Source(content: Hash, timedOut: bool)

  /** The reviewed profile of a request.  `limits` is the reserved block of every budget
      snapshot; the token total has a limit of its own. */
  datatype Config = Config(limits: Usage, totalTokenLimit: nat, retryLimit: nat, price: Price,
                           required: seq<Tool>, sources: map<Tool, Source>)

  // ---- From a reply to an observation ------------------------------------------------

  function StatusOf(reply: Reply): Status {
    match reply
    case BoundaryError => Malformed
    case Failed => OutcomeUnknown
    case Returned(r) =>
      match r.status
      case Complete => Completed
      case Retryable => RetryableError
      case Unknown => OutcomeUnknown
      case _ => Malformed
  }

  function ClassificationOf(reply: Reply): Option<string> {
    match reply
    case BoundaryError => Some("malformed_model_output")
    case Failed => Some("provider_outcome_unknown")
    case Returned(r) => r.classification
  }

  function UsageOf(reply: Reply): Tokens {
    if reply.Returned? then reply.result.usage else Tokens(0, 0)
  }

  function LatencyOf(reply: Reply): nat {
    if reply.Returned? then reply.result.latency else 0
  }

  predicate Reported(reply: Reply) {
    reply.Returned? && reply.result.usageAvailable
  }

  function Observe(intent: Intent, reply: Reply): Observation {
    Observation(intent.turn, intent.reservation, StatusOf(reply), UsageOf(reply), LatencyOf(reply),
                ClassificationOf(reply))
  }

  // ---- What a turn charges -----------------------------------------------------------

  /** What the session that made the call charges: reported usage, or else the reservation. */
  function FreshCharge(reservation: Tokens, reply: Reply): Tokens {
    if Reported(reply) then reply.result.usage else reservation
  }

  /** What a session that finds the turn in the journal charges: recorded usage, or the
      reservation for an unknown outcome without usage. */
  function RecoveredCharge(observation: Observation): Tokens {
    if observation.status.OutcomeUnknown? && observation.usage == Tokens(0, 0)
    then observation.reservation else observation.usage
  }

  /** The effect of one turn on the counters of a session. */
  datatype Entry = Entry(charge: Tokens, latency: nat, reported: bool, action: Option<ActionType>)

  function KindOf(action: Option<Action>): Option<ActionType> {
    if action.Some? then Some(action.value.kind) else None
  }

  /** A turn whose outcome nobody knows. */
  predicate Unresolved(turn: TurnRecord) {
    turn.observation.None? || turn.observation.value.status.OutcomeUnknown?
  }

  /** The whole reservation is charged while there is no observation. */
  function RecoveredEntry(turn: TurnRecord): Entry
    requires turn.intent.Some?
  {
    match turn.observation
    case None => Entry(turn.intent.value.reservation, 0, false, None)
    case Some(o) =>
      Entry(RecoveredCharge(o), o.latency, !(Unresolved(turn) && o.usage == Tokens(0, 0)), KindOf(turn.action))
  }

  function FreshEntry(turn: TurnRecord, reply: Reply): Entry
    requires turn.intent.Some?
  {
    Entry(FreshCharge(turn.intent.value.reservation, reply), LatencyOf(reply), Reported(reply),
          KindOf(turn.action))
  }

  datatype HistoryItem = HistoryItem(turn: nat, kind: ActionType)

  /** The volatile state of a session, apart from its tool results. */
  datatype Progress = Progress(used: Usage, latency: nat, usageAvailable: bool,
                               previous: Option<ActionType>, history: seq<HistoryItem>)

  function Charged(price: Price, p: Progress, charge: Tokens, latency: nat, reported: bool): Progress {
    p.(used := p.used.(providerCalls := p.used.providerCalls + 1,
                       input := p.used.input + charge.input,
                       output := p.used.output + charge.output,
                       cost := p.used.cost + Cost(price, charge.input, charge.output)),
       latency := p.latency + latency,
       usageAvailable := p.usageAvailable && reported)
  }

  function Acted(p: Progress, kind: ActionType): Progress {
    p.(used := p.used.(actions := p.used.actions + 1,
                       noProgress := p.used.noProgress + if p.previous == Some(kind) then 1 else 0),
       previous := Some(kind),
       history := p.history + [HistoryItem(p.used.providerCalls, kind)])
  }

  function Advanced(price: Price, p: Progress, e: Entry): Progress {
    var p' := Charged(price, p, e.charge, e.latency, e.reported);
    if e.action.Some? then Acted(p', e.action.value) else p'
  }

  function Tally(price: Price, start: Progress, entries: seq<Entry>): Progress {
    if entries == [] then start
    else Advanced(price, Tally(price, start, entries[..|entries| - 1]), entries[|entries| - 1])
  }

  lemma TallyStep(price: Price, start: Progress, entries: seq<Entry>, e: Entry)
    ensures Tally(price, start, entries + [e]) == Advanced(price, Tally(price, start, entries), e)
  {
    assert (entries + [e])[..|entries|] == entries;
  }

  function Start(prior: Usage): Progress {
    Progress(prior, 0, true, None, [])
  }

  // ---- Tokens and cost against the budget -----------------------------------------------

  /** What is spent of tokens and cost. */
  datatype Spend = Spend(input: nat, output: nat, cost: nat) {
    predicate AtMost(other: Spend) { input <= other.input && output <= other.output && cost <= other.cost }

    /** The limits, of which the token total has one of its own. */
    predicate Within(cfg: Config) {
      && input <= cfg.limits.input && output <= cfg.limits.output && input + output <= cfg.totalTokenLimit
      && cost <= cfg.limits.cost
    }
  }

  function SpendOf(used: Usage): Spend {
    Spend(used.input, used.output, used.cost)
  }

  function Spent(price: Price, s: Spend, charge: Tokens): Spend {
    Spend(s.input + charge.input, s.output + charge.output, s.cost + Cost(price, charge.input, charge.output))
  }

  function SpentOver(price: Price, s: Spend, charges: seq<Tokens>): Spend {
    if charges == [] then s
    else Spent(price, SpentOver(price, s, charges[..|charges| - 1]), charges[|charges| - 1])
  }

  /** The next call fits even if it uses all that is reserved for it. */
  predicate FitsBudget(cfg: Config, s: Spend, reservation: Tokens) {
    Spent(cfg.price, s, reservation).Within(cfg)
  }

  function ChargesOf(entries: seq<Entry>): seq<Tokens> {
    seq(|entries|, i requires 0 <= i < |entries| => entries[i].charge)
  }

  lemma {:induction false} TallySpends(price: Price, start: Progress, entries: seq<Entry>)
    ensures SpendOf(Tally(price, start, entries).used) == SpentOver(price, SpendOf(start.used), ChargesOf(entries))
  {
    hide Cost;
    if entries != [] {
      var n := |entries| - 1;
      TallySpends(price, start, entries[..n]);
      assert ChargesOf(entries)[..n] == ChargesOf(entries[..n]);
    }
  }

  lemma {:induction false} SpentOverAtMost(price: Price, s: Spend, a: seq<Tokens>, b: seq<Tokens>)
    requires |a| == |b|
    requires forall i :: 0 <= i < |a| ==> a[i].input <= b[i].input && a[i].output <= b[i].output
    ensures SpentOver(price, s, a).AtMost(SpentOver(price, s, b))
  {
    hide Cost;
    if a != [] {
      var n := |a| - 1;
      SpentOverAtMost(price, s, a[..n], b[..n]);
      CostMonotone(price, a[n].input, a[n].output, b[n].input, b[n].output);
    }
  }

  /** What a later session would charge for a turn it finds. */
  function JournalCharge(intents: map<nat, Intent>, observations: map<nat, Observation>, turn: nat): Tokens {
    if turn in observations then RecoveredCharge(observations[turn])
    else if turn in intents then intents[turn].reservation
    else Tokens(0, 0)
  }

  /** What it would have spent behind the first n recorded turns. */
  function JournalSpend(cfg: Config, prior: Usage, intents: map<nat, Intent>, observations: map<nat, Observation>,
                        n: nat): Spend {
    SpentOver(cfg.price, SpendOf(prior),
              seq(n, i requires 0 <= i < n => JournalCharge(intents, observations, prior.providerCalls + 1 + i)))
  }

  // ---- The journal between and during sessions ----------------------------------------

  /** A session goes on past this turn, now or after a restart. */
  predicate Continues(turn: TurnRecord) {
    && turn.observation.Some? && turn.observation.value.status.Completed?
    && turn.action.Some? && turn.action.value.kind.Read?
  }

  /** Only such a turn is ever followed by another. */
  predicate Passable(turn: TurnRecord) {
    Continues(turn) || (turn.observation.Some? && turn.observation.value.status.RetryableError?)
  }

  /** Turns with an intent form one block, straight after the calls of earlier requests. */
  ghost predicate Contiguous(intents: map<nat, Intent>, first: nat) {
    && (forall t :: t in intents <==> first < t <= first + |intents|)
    && (forall t :: t in intents ==> intents[t].turn == t && intents[t].reservation.input >= 1)
  }

  ghost predicate CallsBounded(intents: map<nat, Intent>, first: nat, limit: nat) {
    |intents| > 0 ==> first + |intents| <= limit
  }

  ghost predicate ObservationsIntended(intents: map<nat, Intent>, observations: map<nat, Observation>) {
    forall t :: t in observations ==> t in intents
  }

  ghost predicate ActionsObserved(observations: map<nat, Observation>, actions: map<nat, Action>) {
    forall t :: t in actions ==>
      t in observations && observations[t].status.Completed? && actions[t].turn == t
  }

  /** The provider was contacted once for each turn with an intent, in order, except
      possibly the last; what it replied is what was recorded. */
  ghost predicate Witnessed(intents: map<nat, Intent>, observations: map<nat, Observation>, first: nat,
                            calls: seq<Call>) {
    && |calls| <= |intents| <= |calls| + 1
    && (forall i :: 0 <= i < |calls| ==> calls[i].turn == first + 1 + i)
    && (forall t :: t in observations && t in intents ==>
          first < t <= first + |calls|
          && observations[t] == Observe(intents[t], calls[t - first - 1].reply))
  }

  ghost predicate PassableTo(observations: map<nat, Observation>, actions: map<nat, Action>, first: nat,
                             last: int) {
    forall t :: first < t <= last ==>
      Passable(TurnRecord(None, Lookup(observations, t), Lookup(actions, t)))
  }

  /** Tool results are numbered in order, name distinct tools, and come from read actions. */
  ghost predicate ToolsInOrder(cfg: Config, actions: map<nat, Action>, rows: seq<ToolRow>, firstTool: nat) {
    && (forall i :: 0 <= i < |rows| ==> rows[i].sequence == firstTool + 1 + i)
    && (forall i, j :: 0 <= i < j < |rows| ==> rows[i].result.tool != rows[j].result.tool)
    && (forall i :: 0 <= i < |rows| ==> FromRead(cfg, actions, rows[i].result))
  }

  predicate FromRead(cfg: Config, actions: map<nat, Action>, r: ToolResult) {
    && r.turn in actions && actions[r.turn].kind == Read(r.tool)
    && r.tool in cfg.sources && cfg.sources[r.tool].content == r.content
  }

  /** Every read action up to a turn has its tool result. */
  ghost predicate ReadsAnswered(actions: map<nat, Action>, rows: seq<ToolRow>, last: int) {
    forall t :: t in actions && t <= last && actions[t].kind.Read? ==> HasTool(rows, actions[t].kind.tool)
  }

  ghost predicate BudgetsWithin(budgets: map<nat, Snapshot>, limits: Usage) {
    forall s :: s in budgets ==> budgets[s].used.Within(limits)
  }

  /** Each recorded call fitted the budget that a later session finds spent before it. */
  ghost predicate CallsFit(cfg: Config, prior: Usage, intents: map<nat, Intent>,
                           observations: map<nat, Observation>) {
    forall i :: 0 <= i < |intents| ==> CallFits(cfg, prior, intents, observations, i)
  }

  predicate CallFits(cfg: Config, prior: Usage, intents: map<nat, Intent>, observations: map<nat, Observation>,
                     i: nat) {
    var turn := prior.providerCalls + 1 + i;
    turn in intents ==>
      FitsBudget(cfg, JournalSpend(cfg, prior, intents, observations, i), intents[turn].reservation)
  }

  /** What holds of the journal and the provider at every instant. */
  ghost predicate Sound(cfg: Config, prior: Usage, db: Tables, calls: seq<Call>) {
    var first, n := prior.providerCalls, |db.intents|;
    && Contiguous(db.intents, first)
    && CallsBounded(db.intents, first, cfg.limits.providerCalls)
    && ObservationsIntended(db.intents, db.observations)
    && ActionsObserved(db.observations, db.actions)
    && PassableTo(db.observations, db.actions, first, first + n - 1)
    && Witnessed(db.intents, db.observations, first, calls)
    && ToolsInOrder(cfg, db.actions, db.toolRows, prior.tools)
    && ReadsAnswered(db.actions, db.toolRows, first + n - 1)
    && BudgetsWithin(db.budgets, cfg.limits)
    && CallsFit(cfg, prior, db.intents, db.observations)
  }

  /** Every recorded turn may be passed, so a further call may follow. */
  ghost predicate Settled(prior: Usage, db: Tables) {
    var last := prior.providerCalls + |db.intents|;
    && PassableTo(db.observations, db.actions, prior.providerCalls, last)
    && ReadsAnswered(db.actions, db.toolRows, last)
  }

  lemma NothingRecordedIsSound(cfg: Config, prior: Usage)
    ensures Sound(cfg, prior, Tables(map[], map[], map[], [], map[]), [])
    ensures Settled(prior, Tables(map[], map[], map[], [], map[]))
  {
  }

  lemma TurnInBlock(cfg: Config, prior: Usage, db: Tables, calls: seq<Call>, turn: nat)
    requires Sound(cfg, prior, db, calls)
    ensures turn in db.intents <==> prior.providerCalls < turn <= prior.providerCalls + |db.intents|
  {
  }

  lemma IntentNamesTurn(cfg: Config, prior: Usage, db: Tables, calls: seq<Call>, turn: nat)
    requires Sound(cfg, prior, db, calls) && turn in db.intents
    ensures db.intents[turn].turn == turn && db.intents[turn].reservation.input >= 1
    ensures turn !in db.observations ==> turn !in db.actions
  {
    hide PassableTo, Witnessed, ToolsInOrder, ReadsAnswered, CallsFit;
  }

  lemma NothingBeyondIntents(cfg: Config, prior: Usage, db: Tables, calls: seq<Call>, turn: nat)
    requires Sound(cfg, prior, db, calls) && turn !in db.intents
    ensures turn !in db.observations && turn !in db.actions
  {
    hide PassableTo, Witnessed, ToolsInOrder, ReadsAnswered, CallsFit;
  }

  lemma OneCallAnIntent(cfg: Config, prior: Usage, db: Tables, calls: seq<Call>)
    requires Sound(cfg, prior, db, calls)
    ensures |calls| <= |db.intents|
  {
  }

  /** No action belongs to a turn outside the block. */
  lemma EarlierReadsAnswered(cfg: Config, prior: Usage, db: Tables, calls: seq<Call>)
    requires Sound(cfg, prior, db, calls)
    ensures ReadsAnswered(db.actions, db.toolRows, prior.providerCalls)
  {
    hide PassableTo, Witnessed, ToolsInOrder, HasTool, CallsFit;
  }

  /** The same turns are recorded, with perhaps other tool results and snapshots. */
  predicate SameTurns(db: Tables, db': Tables) {
    db' == db.(toolRows := db'.toolRows, budgets := db'.budgets)
  }

  /** Only a completed turn has an action. */
  lemma IncompleteHasNoAction(cfg: Config, prior: Usage, db: Tables, calls: seq<Call>, turn: nat)
    requires Sound(cfg, prior, db, calls)
    ensures turn in db.actions ==> turn in db.observations && db.observations[turn].status.Completed?
  {
    hide PassableTo, Witnessed, ToolsInOrder, ReadsAnswered, CallsFit, Contiguous;
  }

  // ---- Each write keeps the journal sound ---------------------------------------------

  lemma SoundAfterBudget(cfg: Config, prior: Usage, db: Tables, calls: seq<Call>, s: nat, snapshot: Snapshot)
    requires Sound(cfg, prior, db, calls) && snapshot.used.Within(cfg.limits)
    ensures var db' := db.(budgets := db.budgets[s := snapshot]);
            && Sound(cfg, prior, db', calls)
            && (Settled(prior, db) ==> Settled(prior, db'))
  {
    hide Contiguous, ObservationsIntended, ActionsObserved, PassableTo, Witnessed, ToolsInOrder, ReadsAnswered,
         CallsFit;
  }

  lemma SoundAfterIntent(cfg: Config, prior: Usage, db: Tables, calls: seq<Call>, intent: Intent)
    requires Sound(cfg, prior, db, calls) && Settled(prior, db) && |calls| == |db.intents|
    requires intent.turn == prior.providerCalls + |db.intents| + 1 <= cfg.limits.providerCalls
    requires intent.reservation.input >= 1
    requires FitsBudget(cfg, JournalSpend(cfg, prior, db.intents, db.observations, |db.intents|), intent.reservation)
    ensures Sound(cfg, prior, db.(intents := db.intents[intent.turn := intent]), calls)
  {
    hide Contiguous, Witnessed, ActionsObserved, PassableTo, ToolsInOrder, ReadsAnswered, BudgetsWithin, CallsFit,
         FitsBudget, JournalSpend;
    FitsAfterIntent(cfg, prior, db.intents, db.observations, intent);
    BlockGrows(db.intents, prior.providerCalls, intent);
    IntentAhead(db.intents, db.observations, prior.providerCalls, calls, intent);
  }

  /** The spend behind a turn depends on the turns before it. */
  lemma SpendKept(cfg: Config, prior: Usage, intents: map<nat, Intent>, observations: map<nat, Observation>,
                  intents': map<nat, Intent>, observations': map<nat, Observation>, n: nat)
    requires forall t :: prior.providerCalls < t <= prior.providerCalls + n ==>
               JournalCharge(intents', observations', t) == JournalCharge(intents, observations, t)
    ensures JournalSpend(cfg, prior, intents', observations', n) == JournalSpend(cfg, prior, intents, observations, n)
  {
    hide JournalCharge, SpentOver;
    var first := prior.providerCalls;
    assert seq(n, i requires 0 <= i < n => JournalCharge(intents', observations', first + 1 + i))
           == seq(n, i requires 0 <= i < n => JournalCharge(intents, observations, first + 1 + i));
  }

  lemma FitsAfterIntent(cfg: Config, prior: Usage, intents: map<nat, Intent>, observations: map<nat, Observation>,
                        intent: Intent)
    requires Contiguous(intents, prior.providerCalls) && CallsFit(cfg, prior, intents, observations)
    requires intent.turn == prior.providerCalls + |intents| + 1
    requires FitsBudget(cfg, JournalSpend(cfg, prior, intents, observations, |intents|), intent.reservation)
    ensures CallsFit(cfg, prior, intents[intent.turn := intent], observations)
  {
    hide FitsBudget, JournalSpend;
    var intents' := intents[intent.turn := intent];
    assert intent.turn !in intents;
    assert |intents'| == |intents| + 1;
    forall i | 0 <= i < |intents'|
      ensures CallFits(cfg, prior, intents', observations, i)
    {
      assert i < |intents| ==> CallFits(cfg, prior, intents, observations, i);
      SpendKept(cfg, prior, intents, observations, intents', observations, i);
    }
  }

  lemma FitsAfterObservation(cfg: Config, prior: Usage, intents: map<nat, Intent>,
                             observations: map<nat, Observation>, turn: nat, o: Observation)
    requires CallsFit(cfg, prior, intents, observations) && turn == prior.providerCalls + |intents|
    ensures CallsFit(cfg, prior, intents, observations[turn := o])
  {
    hide FitsBudget, JournalSpend;
    var observations' := observations[turn := o];
    forall i | 0 <= i < |intents|
      ensures CallFits(cfg, prior, intents, observations', i)
    {
      assert CallFits(cfg, prior, intents, observations, i);
      SpendKept(cfg, prior, intents, observations, intents, observations', i);
    }
  }

  lemma BlockGrows(intents: map<nat, Intent>, first: nat, intent: Intent)
    requires Contiguous(intents, first) && intent.turn == first + |intents| + 1 && intent.reservation.input >= 1
    ensures intent.turn !in intents && |intents[intent.turn := intent]| == |intents| + 1
    ensures Contiguous(intents[intent.turn := intent], first)
  {
    assert intent.turn !in intents;
  }

  lemma IntentAhead(intents: map<nat, Intent>, observations: map<nat, Observation>, first: nat, calls: seq<Call>,
                    intent: Intent)
    requires Witnessed(intents, observations, first, calls) && |calls| == |intents|
    requires ObservationsIntended(intents, observations) && intent.turn !in intents
    ensures Witnessed(intents[intent.turn := intent], observations, first, calls)
  {
    assert |intents[intent.turn := intent]| == |intents| + 1;
  }

  lemma SoundAfterCall(cfg: Config, prior: Usage, db: Tables, calls: seq<Call>, reply: Reply)
    requires Sound(cfg, prior, db, calls) && |db.intents| == |calls| + 1
    ensures Sound(cfg, prior, db, calls + [Call(prior.providerCalls + |db.intents|, reply)])
  {
    hide Contiguous, ObservationsIntended, ActionsObserved, PassableTo, ToolsInOrder, ReadsAnswered, BudgetsWithin,
         CallsFit;
  }

  lemma SoundAfterObservation(cfg: Config, prior: Usage, db: Tables, calls: seq<Call>)
    requires Sound(cfg, prior, db, calls) && |db.intents| == |calls| > 0
    requires prior.providerCalls + |calls| !in db.observations
    ensures var turn := prior.providerCalls + |calls|;
            && turn in db.intents
            && var o := Observe(db.intents[turn], calls[|calls| - 1].reply);
               Sound(cfg, prior, db.(observations := db.observations[turn := o]), calls)
  {
    hide ToolsInOrder, ReadsAnswered, BudgetsWithin, CallsFit;
    var turn := prior.providerCalls + |calls|;
    assert turn in db.intents;
    FitsAfterObservation(cfg, prior, db.intents, db.observations, turn,
                         Observe(db.intents[turn], calls[|calls| - 1].reply));
  }

  lemma SoundAfterAction(cfg: Config, prior: Usage, db: Tables, calls: seq<Call>, action: Action)
    requires Sound(cfg, prior, db, calls) && action.turn == prior.providerCalls + |db.intents|
    requires action.turn in db.observations && db.observations[action.turn].status.Completed?
    requires action.turn !in db.actions
    ensures Sound(cfg, prior, db.(actions := db.actions[action.turn := action]), calls)
  {
    hide Contiguous, ObservationsIntended, Witnessed, BudgetsWithin, CallsFit;
  }

  lemma HasToolAppended(rows: seq<ToolRow>, row: ToolRow)
    ensures forall t :: HasTool(rows + [row], t) <==> HasTool(rows, t) || t == row.result.tool
  {
    var rows' := rows + [row];
    forall t | HasTool(rows, t) || t == row.result.tool
      ensures HasTool(rows', t)
    {
      if t == row.result.tool {
        assert rows'[|rows|].result.tool == t;
      } else {
        var i :| 0 <= i < |rows| && rows[i].result.tool == t;
        assert rows'[i].result.tool == t;
      }
    }
  }

  /** A new tool result goes last, and answers its read. */
  lemma ToolResultGoesLast(cfg: Config, actions: map<nat, Action>, rows: seq<ToolRow>, firstTool: nat,
                           result: ToolResult)
    requires ToolsInOrder(cfg, actions, rows, firstTool) && FromRead(cfg, actions, result)
    requires !HasTool(rows, result.tool)
    ensures var row := ToolRow(firstTool + |rows| + 1, result);
            && WithToolRow(rows, row) == rows + [row]
            && ToolsInOrder(cfg, actions, rows + [row], firstTool)
  {
  }

  lemma SoundAfterToolResult(cfg: Config, prior: Usage, db: Tables, calls: seq<Call>, result: ToolResult)
    requires Sound(cfg, prior, db, calls) && !HasTool(db.toolRows, result.tool)
    requires FromRead(cfg, db.actions, result)
    ensures var row := ToolRow(prior.tools + |db.toolRows| + 1, result);
            var db' := db.(toolRows := db.toolRows + [row]);
            && WithToolRow(db.toolRows, row) == db.toolRows + [row]
            && Sound(cfg, prior, db', calls)
            && HasTool(db'.toolRows, result.tool)
  {
    hide Contiguous, ObservationsIntended, ActionsObserved, PassableTo, Witnessed, ToolsInOrder, BudgetsWithin,
         HasTool, CallsFit;
    ToolResultGoesLast(cfg, db.actions, db.toolRows, prior.tools, result);
    HasToolAppended(db.toolRows, ToolRow(prior.tools + |db.toolRows| + 1, result));
  }

  // ---- What a restart rebuilds ----------------------------------------------------------

  predicate AllContinue(turns: seq<TurnRecord>) {
    forall i :: 0 <= i < |turns| ==> turns[i].intent.Some? && Continues(turns[i])
  }

  function RecoveredEntries(turns: seq<TurnRecord>): seq<Entry>
    requires AllContinue(turns)
  {
    seq(|turns|, i requires 0 <= i < |turns| => RecoveredEntry(turns[i]))
  }

  lemma SameTurnRecords(a: Tables, b: Tables, first: nat, n: nat)
    requires SameTurns(a, b)
    ensures TurnsFrom(a, first, n) == TurnsFrom(b, first, n)
  {
    forall i | 0 <= i < n
      ensures TurnsFrom(a, first, n)[i] == TurnsFrom(b, first, n)[i]
    {
      assert TurnAt(a, first + 1 + i) == TurnAt(b, first + 1 + i);
    }
  }
}
