/** The accounts a session keeps of the turns behind it: what it charged for each, what they
    add up to at the head of its loop and in its result, and what the journal makes of them. */
module QQModelAccounts {
  import opened Common
  import opened Money
  import opened QQModelJournal
  import opened QQModelTurns

  datatype Terminal = ResponseReady | InformationNeeded | OperatorNeeded | ToolTimeout
                    | BudgetExhausted | MalformedModelOutput | PolicyDenied | ProviderOutcomeUnknown

  datatype Result = Result(terminal: Terminal, reason: string, candidate: Option<string>,
                           evidence: seq<Hash>, action: Option<Action>, used: Usage, latency: nat,
                           usageAvailable: bool, pessimistic: bool)

  function Contents(rows: seq<ToolRow>): seq<Hash> {
    seq(|rows|, i requires 0 <= i < |rows| => rows[i].result.content)
  }

  /** How a session ends at a turn it finds in the journal and may not pass. */
  function RecoveredTerminal(turn: TurnRecord): (t: Terminal)
    ensures t in {ProviderOutcomeUnknown, MalformedModelOutput, InformationNeeded, OperatorNeeded}
  {
    if Unresolved(turn) then ProviderOutcomeUnknown
    else if turn.action.None? then MalformedModelOutput
    else match turn.action.value.kind
         case NeedsInformation => InformationNeeded
         case NeedsOperator => OperatorNeeded
         case _ => MalformedModelOutput
  }

  function RecoveredReason(turn: TurnRecord): string {
    if turn.observation.None? then "recovery_missing_provider_observation"
    else if turn.observation.value.status != Completed then
      (match turn.observation.value.classification
       case Some(c) => c
       case None => "recovery_provider_observation_not_completed")
    else if turn.action.None? then "recovery_action_evidence_missing"
    else match turn.action.value.kind
         case NeedsInformation => "recovered_model_needs_information"
         case NeedsOperator => "recovered_model_needs_operator"
         case _ => "recovery_candidate_content_unavailable"
  }

  /** A session that never got behind the recorded turns ends at the first that it may not pass,
      as that turn says, unless a budget ran out. */
  predicate EndsAtRecorded(cfg: Config, prior: Usage, db: Tables, n: nat, r: Result) {
    var turn := TurnAt(db, prior.providerCalls + n);
    || (Exhausted(cfg, r) && r.candidate == None)
    || (0 < n <= |db.intents| && AllContinue(TurnsFrom(db, prior.providerCalls, n - 1)) && !Continues(turn)
        && r.terminal == RecoveredTerminal(turn) && r.reason == RecoveredReason(turn) && r.candidate == None)
  }

  /** Actions or calls have run out, and the result says which. */
  predicate Exhausted(cfg: Config, r: Result) {
    && r.terminal.BudgetExhausted?
    && ((r.used.actions >= cfg.limits.actions && r.reason == "action_budget_exhausted")
        || (r.used.providerCalls >= cfg.limits.providerCalls && r.reason == "provider_call_budget_exhausted"))
  }

  // ---- Accounts of turns ------------------------------------------------------------------

  /** A turn found in the journal is charged by the recovery rule, any other by its reply; the
      first `recovered` turns were found. */
  predicate TurnSettled(e: Entry, turn: TurnRecord, calls: seq<Call>, recovered: nat, i: nat) {
    && turn.intent.Some?
    && if i < recovered then e == RecoveredEntry(turn)
       else i < |calls| && e == FreshEntry(turn, calls[i].reply)
  }

  /** And the session went on past it. */
  predicate TurnCharged(e: Entry, turn: TurnRecord, calls: seq<Call>, recovered: nat, i: nat) {
    && TurnSettled(e, turn, calls, recovered, i)
    && (if i < recovered then Continues(turn) else Passable(turn))
  }

  ghost predicate Settles(account: seq<Entry>, db: Tables, first: nat, calls: seq<Call>, recovered: nat) {
    forall i :: 0 <= i < |account| ==> TurnSettled(account[i], TurnAt(db, first + 1 + i), calls, recovered, i)
  }

  ghost predicate Charges(entries: seq<Entry>, db: Tables, first: nat, calls: seq<Call>, recovered: nat) {
    forall i :: 0 <= i < |entries| ==> TurnCharged(entries[i], TurnAt(db, first + 1 + i), calls, recovered, i)
  }

  lemma ChargesKept(entries: seq<Entry>, db: Tables, first: nat, calls: seq<Call>, recovered: nat,
                    db': Tables, calls': seq<Call>)
    requires Charges(entries, db, first, calls, recovered) && calls <= calls'
    requires forall t :: first < t <= first + |entries| ==> TurnAt(db', t) == TurnAt(db, t)
    ensures Charges(entries, db', first, calls', recovered)
  {
    hide Continues, Passable, RecoveredEntry, FreshEntry;
    forall i | 0 <= i < |entries|
      ensures TurnCharged(entries[i], TurnAt(db', first + 1 + i), calls', recovered, i)
    {
      assert TurnCharged(entries[i], TurnAt(db, first + 1 + i), calls, recovered, i);
    }
  }

  lemma ChargesGrow(entries: seq<Entry>, db: Tables, first: nat, calls: seq<Call>, recovered: nat, e: Entry)
    requires Charges(entries, db, first, calls, recovered)
    requires TurnCharged(e, TurnAt(db, first + 1 + |entries|), calls, recovered, |entries|)
    ensures Charges(entries + [e], db, first, calls, recovered)
  {
    hide TurnCharged;
  }

  lemma ChargesSettle(entries: seq<Entry>, db: Tables, first: nat, calls: seq<Call>, recovered: nat)
    requires Charges(entries, db, first, calls, recovered)
    ensures Settles(entries, db, first, calls, recovered)
  {
    hide TurnSettled;
    forall i | 0 <= i < |entries|
      ensures TurnSettled(entries[i], TurnAt(db, first + 1 + i), calls, recovered, i)
    {
      assert TurnCharged(entries[i], TurnAt(db, first + 1 + i), calls, recovered, i);
    }
  }

  /** The last turn may be one the session does not pass. */
  lemma LastSettles(entries: seq<Entry>, db: Tables, first: nat, calls: seq<Call>, recovered: nat, e: Entry)
    requires Charges(entries, db, first, calls, recovered)
    requires TurnSettled(e, TurnAt(db, first + 1 + |entries|), calls, recovered, |entries|)
    ensures Settles(entries + [e], db, first, calls, recovered)
  {
    ChargesSettle(entries, db, first, calls, recovered);
    hide TurnSettled, Charges;
  }


  /** Whether the last turn accounted for has an unknown outcome. */
  predicate LastUnknown(db: Tables, first: nat, n: nat) {
    n > 0 && Unresolved(TurnAt(db, first + n))
  }

  lemma PassedIsKnown(entries: seq<Entry>, db: Tables, first: nat, calls: seq<Call>, recovered: nat)
    requires Charges(entries, db, first, calls, recovered)
    ensures !LastUnknown(db, first, |entries|)
  {
    hide TurnSettled;
    if entries != [] {
      var n := |entries| - 1;
      assert TurnCharged(entries[n], TurnAt(db, first + 1 + n), calls, recovered, n);
    }
  }

  /** The call of the last turn, if this session made it, fitted what was spent before. */
  ghost predicate LastFits(cfg: Config, prior: Usage, db: Tables, account: seq<Entry>, recovered: nat) {
    |account| > recovered ==>
      && prior.providerCalls + |account| in db.intents
      && FitsBudget(cfg, SpendOf(Tally(cfg.price, Start(prior), account[..|account| - 1]).used),
                    db.intents[prior.providerCalls + |account|].reservation)
  }

  lemma NothingCharged(cfg: Config, prior: Usage, db: Tables, calls: seq<Call>, recovered: nat)
    ensures Charges([], db, prior.providerCalls, calls, recovered) && LastFits(cfg, prior, db, [], recovered)
    ensures Tally(cfg.price, Start(prior), []) == Start(prior)
  {
  }

  /** What a session makes of a recorded turn it may not pass. */
  lemma RecordedTurn(price: Price, p: Progress, db: Tables, turn: nat)
    requires turn in db.intents
    requires turn in db.actions ==> turn in db.observations && db.observations[turn].status.Completed?
    ensures var record, e := TurnAt(db, turn), RecoveredEntry(TurnAt(db, turn));
            && (turn !in db.observations || db.observations[turn].status.OutcomeUnknown? <==> Unresolved(record))
            && (turn !in db.actions ==>
                  && !Continues(record)
                  && RecoveredTerminal(record)
                     == (if Unresolved(record) then ProviderOutcomeUnknown else MalformedModelOutput)
                  && Advanced(price, p, e) == Charged(price, p, e.charge, e.latency, e.reported))
  {
    hide Charged;
  }

  /** A session that ends other than for its budget names the action of its last turn. */
  predicate NamesLast(db: Tables, first: nat, n: nat, terminal: Terminal, action: Option<Action>) {
    terminal.BudgetExhausted? || (n > 0 && action == TurnAt(db, first + n).action)
  }

  /** The recorded turns behind a session may all be passed. */
  lemma ChargedContinue(entries: seq<Entry>, db: Tables, first: nat, calls: seq<Call>, recovered: nat)
    requires Charges(entries, db, first, calls, recovered) && |entries| <= recovered
    ensures AllContinue(TurnsFrom(db, first, |entries|))
  {
    hide RecoveredEntry, Continues, TurnAt;
    var turns := TurnsFrom(db, first, |entries|);
    forall i | 0 <= i < |entries|
      ensures turns[i].intent.Some? && Continues(turns[i])
    {
      assert TurnCharged(entries[i], TurnAt(db, first + 1 + i), calls, recovered, i);
    }
  }

  /** Tool results and budget snapshots do not matter to an account. */
  lemma AccountKept(cfg: Config, prior: Usage, db: Tables, db': Tables, calls: seq<Call>, account: seq<Entry>,
                    recovered: nat)
    requires SameTurns(db, db')
    ensures Settles(account, db', prior.providerCalls, calls, recovered)
            <==> Settles(account, db, prior.providerCalls, calls, recovered)
    ensures LastFits(cfg, prior, db', account, recovered) <==> LastFits(cfg, prior, db, account, recovered)
    ensures LastUnknown(db', prior.providerCalls, |account|) <==> LastUnknown(db, prior.providerCalls, |account|)
    ensures forall terminal, action ::
              NamesLast(db', prior.providerCalls, |account|, terminal, action)
              <==> NamesLast(db, prior.providerCalls, |account|, terminal, action)
  {
    hide TurnSettled, Tally, FitsBudget;
    assert forall t: nat :: TurnAt(db', t) == TurnAt(db, t);
  }

  /** What a result must say of the turns behind it: its counters are those of the account,
      with the wall time only added and the tools those of the journal. */
  ghost predicate FinalAccount(cfg: Config, prior: Usage, db: Tables, calls: seq<Call>, account: seq<Entry>,
                               recovered: nat, r: Result) {
    && |account| <= |db.intents|
    && Settles(account, db, prior.providerCalls, calls, recovered)
    && LastFits(cfg, prior, db, account, recovered)
    && Totals(cfg.price, prior, account, |db.toolRows|, r.used, r.latency, r.usageAvailable)
    && r.evidence == Contents(db.toolRows)
    && NamesLast(db, prior.providerCalls, |account|, r.terminal, r.action)
    && r.used.providerCalls * 2 + 2 in db.budgets
    && (r.pessimistic <==> LastUnknown(db, prior.providerCalls, |account|))
    && (r.pessimistic <==> r.terminal.ProviderOutcomeUnknown?)
  }

  predicate SameTotals(p: Progress, q: Progress) {
    p.used == q.used && p.latency == q.latency && p.usageAvailable == q.usageAvailable
  }

  predicate Totals(price: Price, prior: Usage, account: seq<Entry>, tools: nat, used: Usage, latency: nat,
                   usageAvailable: bool) {
    var p := Tally(price, Start(prior), account);
    && used == p.used.(tools := prior.tools + tools, wallTime := used.wallTime)
    && latency == p.latency && usageAvailable == p.usageAvailable
  }

  // ---- The head of the loop ---------------------------------------------------------------

  /** The volatile state of a session at the head of its loop. */
  datatype Standing = Standing(progress: Progress, observations: seq<ToolResult>, evidence: seq<Hash>)

  /** It is determined by the accounts and the durable tool results. */
  function StandingOf(price: Price, prior: Usage, rows: seq<ToolRow>, entries: seq<Entry>): Standing {
    var p := Tally(price, Start(prior), entries);
    Standing(p.(used := p.used.(tools := prior.tools + |rows|)), Results(rows), Contents(rows))
  }

  /** A head at which every recorded turn is behind the session. */
  datatype Head = Head(standing: Standing, retries: nat, entries: seq<Entry>, recovered: nat, db: Tables,
                       calls: seq<Call>)

  ghost predicate HeadOf(cfg: Config, prior: Usage, h: Head) {
    && Sound(cfg, prior, h.db, h.calls) && |h.entries| == |h.db.intents| && h.recovered <= |h.db.intents|
    && Charges(h.entries, h.db, prior.providerCalls, h.calls, h.recovered)
    && ReadsAnswered(h.db.actions, h.db.toolRows, prior.providerCalls + |h.entries|)
    && LastFits(cfg, prior, h.db, h.entries, h.recovered)
    && h.standing == StandingOf(cfg.price, prior, h.db.toolRows, h.entries)
  }

  /** When every turn of the journal is behind the session, a further call may follow. */
  lemma HeadIsSettled(cfg: Config, prior: Usage, db: Tables, calls: seq<Call>, entries: seq<Entry>,
                      recovered: nat)
    requires Sound(cfg, prior, db, calls) && |entries| == |db.intents|
    requires Charges(entries, db, prior.providerCalls, calls, recovered)
    requires ReadsAnswered(db.actions, db.toolRows, prior.providerCalls + |entries|)
    ensures Settled(prior, db) && |calls| == |db.intents|
  {
    hide ReadsAnswered, ToolsInOrder, BudgetsWithin, CallsFit, RecoveredEntry, FreshEntry;
    var n := |entries|;
    if n > 0 {
      assert TurnCharged(entries[n - 1], TurnAt(db, prior.providerCalls + n), calls, recovered, n - 1);
      assert Passable(TurnAt(db, prior.providerCalls + n));
    }
  }

  /** The progress behind the recorded turns, as a function of the journal alone. */
  ghost predicate Reproduced(cfg: Config, prior: Usage, db: Tables, standing: Standing) {
    var turns := TurnsFrom(db, prior.providerCalls, |db.intents|);
    AllContinue(turns) && standing == StandingOf(cfg.price, prior, db.toolRows, RecoveredEntries(turns))
  }

  /** A session that has only replayed stands where the journal alone puts it. */
  lemma ReplayedEntries(cfg: Config, prior: Usage, h: Head)
    requires HeadOf(cfg, prior, h) && h.recovered == |h.db.intents|
    ensures Reproduced(cfg, prior, h.db, h.standing)
  {
    hide Sound, TurnAt, RecoveredEntry, Continues, StandingOf, LastFits, ReadsAnswered;
    var turns := TurnsFrom(h.db, prior.providerCalls, h.recovered);
    forall i | 0 <= i < h.recovered
      ensures turns[i].intent.Some? && Continues(turns[i]) && h.entries[i] == RecoveredEntry(turns[i])
    {
      assert TurnCharged(h.entries[i], TurnAt(h.db, prior.providerCalls + 1 + i), h.calls, h.recovered, i);
    }
    assert h.entries == RecoveredEntries(turns);
  }

  /** The head at which a session that began with `start` first has no recorded turn left. */
  ghost predicate Resumes(cfg: Config, prior: Usage, start: Tables, calls: seq<Call>, h: Head) {
    && HeadOf(cfg, prior, h) && Reproduced(cfg, prior, h.db, h.standing)
    && h.recovered == |start.intents| && h.calls == calls
    && SameTurns(start, h.db) && (Settled(prior, start) ==> h.db.toolRows == start.toolRows)
  }

  // ---- Staying within the budget ------------------------------------------------------------

  /** A turn the session passed was charged at least what a later session would charge. */
  lemma ChargedAtLeast(cfg: Config, prior: Usage, db: Tables, calls: seq<Call>, entries: seq<Entry>,
                       recovered: nat, i: nat)
    requires Sound(cfg, prior, db, calls) && i < |entries| <= |db.intents|
    requires Charges(entries, db, prior.providerCalls, calls, recovered)
    ensures var again := JournalCharge(db.intents, db.observations, prior.providerCalls + 1 + i);
            && again.input <= entries[i].charge.input && again.output <= entries[i].charge.output
            && (i < recovered ==> again == entries[i].charge)
  {
    hide ToolsInOrder, ReadsAnswered, BudgetsWithin, CallsFit, PassableTo, ActionsObserved;
    var t := prior.providerCalls + 1 + i;
    assert TurnCharged(entries[i], TurnAt(db, t), calls, recovered, i);
    assert t in db.observations;
    assert db.observations[t] == Observe(db.intents[t], calls[i].reply);
  }

  /** What fits the session's spend fits that of a later session. */
  lemma SessionSpendCovers(cfg: Config, prior: Usage, db: Tables, calls: seq<Call>, entries: seq<Entry>,
                           recovered: nat, reservation: Tokens)
    requires Sound(cfg, prior, db, calls) && |entries| <= |db.intents|
    requires Charges(entries, db, prior.providerCalls, calls, recovered)
    requires FitsBudget(cfg, SpendOf(Tally(cfg.price, Start(prior), entries).used), reservation)
    ensures FitsBudget(cfg, JournalSpend(cfg, prior, db.intents, db.observations, |entries|), reservation)
  {
    hide Sound, Charges, Cost, Tally, SpentOver, JournalCharge;
    var charges := seq(|entries|, i requires 0 <= i < |entries| =>
                         JournalCharge(db.intents, db.observations, prior.providerCalls + 1 + i));
    forall i | 0 <= i < |entries|
      ensures charges[i].input <= ChargesOf(entries)[i].input && charges[i].output <= ChargesOf(entries)[i].output
    {
      ChargedAtLeast(cfg, prior, db, calls, entries, recovered, i);
    }
    TallySpends(cfg.price, Start(prior), entries);
    SpentOverAtMost(cfg.price, SpendOf(prior), charges, ChargesOf(entries));
  }

  /** Each reported usage is at most what was reserved for its call. */
  ghost predicate Honest(intents: map<nat, Intent>, calls: seq<Call>, first: nat) {
    forall i :: 0 <= i < |calls| && first + 1 + i in intents ==>
      HonestCall(intents[first + 1 + i].reservation, calls[i].reply)
  }

  predicate HonestCall(reservation: Tokens, reply: Reply) {
    Reported(reply) ==> reply.result.usage.input <= reservation.input && reply.result.usage.output <= reservation.output
  }

  /** And less cannot be asked of a reply: what it is charged stays within every configuration in
      which its reservation fitted, exactly if it reports no more of either kind of token. */
  lemma HonestyIsExact(price: Price, s: Spend, reserved: Tokens, reply: Reply)
    ensures (forall cfg: Config :: cfg.price == price && FitsBudget(cfg, s, reserved) ==>
               Spent(price, s, FreshCharge(reserved, reply)).Within(cfg))
            <==> HonestCall(reserved, reply)
  {
    var used := FreshCharge(reserved, reply);
    if used.input <= reserved.input && used.output <= reserved.output {
      CostMonotone(price, used.input, used.output, reserved.input, reserved.output);
    } else {
      hide Cost;
      var t := Spent(price, s, reserved);
      var tight := Config(Usage(0, t.input, t.output, 0, 0, 0, 0, t.cost), t.input + t.output, 0, price, [], map[]);
      assert FitsBudget(tight, s, reserved) && !Spent(price, s, used).Within(tight);
    }
  }

  /** Nothing was spent, or what was is within the token, total and cost limits. */
  predicate SpendKeptWithin(cfg: Config, prior: Usage, used: Usage) {
    SpendOf(used) == SpendOf(prior) || SpendOf(used).Within(cfg)
  }

  /** No usage can be reported without a result. */
  lemma LastChargeReserved(cfg: Config, prior: Usage, db: Tables, calls: seq<Call>, account: seq<Entry>,
                           recovered: nat)
    requires Sound(cfg, prior, db, calls) && 0 < |account| <= |db.intents|
    requires Settles(account, db, prior.providerCalls, calls, recovered)
    requires Honest(db.intents, calls, prior.providerCalls)
    ensures var turn := prior.providerCalls + |account|;
            && turn in db.intents
            && var e := account[|account| - 1];
               && e.charge.input <= db.intents[turn].reservation.input
               && e.charge.output <= db.intents[turn].reservation.output
  {
    hide ToolsInOrder, ReadsAnswered, BudgetsWithin, CallsFit, PassableTo, ActionsObserved;
    var n := |account| - 1;
    var turn := prior.providerCalls + 1 + n;
    assert TurnSettled(account[n], TurnAt(db, turn), calls, recovered, n);
    assert turn in db.intents;
    if turn in db.observations {
      assert db.observations[turn] == Observe(db.intents[turn], calls[n].reply);
    }
    assert n < |calls| ==> HonestCall(db.intents[prior.providerCalls + 1 + n].reservation, calls[n].reply);
  }

  /** The turns before the last recovered one were spent as the journal has them. */
  lemma RecoveredSpend(cfg: Config, prior: Usage, db: Tables, calls: seq<Call>, account: seq<Entry>,
                       recovered: nat)
    requires Sound(cfg, prior, db, calls) && 0 < |account| <= recovered && |account| <= |db.intents|
    requires Settles(account, db, prior.providerCalls, calls, recovered)
    ensures FitsBudget(cfg, SpendOf(Tally(cfg.price, Start(prior), account[..|account| - 1]).used),
                       db.intents[prior.providerCalls + |account|].reservation)
  {
    hide Contiguous, Witnessed, ToolsInOrder, ReadsAnswered, BudgetsWithin, PassableTo, ActionsObserved, Cost, Tally,
         SpentOver, FitsBudget;
    var n := |account| - 1;
    var front := account[..n];
    assert CallFits(cfg, prior, db.intents, db.observations, n);
    TallySpends(cfg.price, Start(prior), front);
    forall i | 0 <= i < n
      ensures front[i].charge == JournalCharge(db.intents, db.observations, prior.providerCalls + 1 + i)
    {
      assert TurnSettled(account[i], TurnAt(db, prior.providerCalls + 1 + i), calls, recovered, i);
    }
    assert ChargesOf(front)
           == seq(n, i requires 0 <= i < n =>
                JournalCharge(db.intents, db.observations, prior.providerCalls + 1 + i));
    assert prior.providerCalls + |account| in db.intents by {
      assert TurnSettled(account[n], TurnAt(db, prior.providerCalls + 1 + n), calls, recovered, n);
    }
  }

  /** While no reported usage outruns its reservation, what a session spends stays within the
      token, total and cost limits, whatever it found in the journal. */
  lemma WithinWhileHonest(cfg: Config, prior: Usage, db: Tables, calls: seq<Call>, account: seq<Entry>,
                          recovered: nat)
    requires Sound(cfg, prior, db, calls) && |account| <= |db.intents|
    requires Settles(account, db, prior.providerCalls, calls, recovered)
    requires LastFits(cfg, prior, db, account, recovered)
    requires Honest(db.intents, calls, prior.providerCalls)
    ensures SpendKeptWithin(cfg, prior, Tally(cfg.price, Start(prior), account).used)
  {
    hide Sound, Settles, Honest, Cost, FreshEntry, RecoveredEntry;
    if account != [] {
      LastChargeReserved(cfg, prior, db, calls, account, recovered);
      if |account| <= recovered {
        RecoveredSpend(cfg, prior, db, calls, account, recovered);
      }
      var e, r := account[|account| - 1].charge, db.intents[prior.providerCalls + |account|].reservation;
      CostMonotone(cfg.price, e.input, e.output, r.input, r.output);
    }
  }
}
