/** What any number of sessions, interrupted anywhere, does to a request: the provider is
    contacted at most once for a turn, and a restart rebuilds the interrupted run. */
module QQModelSessions {
  import opened Common
  import opened Money
  import opened QQModelJournal
  import opened QQModelTurns
  import opened QQModelAccounts
  import opened QQModelVerdicts
  import opened QQModelRuntime

  /** Contacts are for consecutive turns, each with a durable intent, none twice, and all of
      them fit what earlier requests left of the call limit. */
  ghost predicate ContactedOnce(cfg: Config, prior: Usage, db: Tables, calls: seq<Call>) {
    && (forall i, j :: 0 <= i < j < |calls| ==> calls[i].turn != calls[j].turn)
    && (forall i :: 0 <= i < |calls| ==> calls[i].turn == prior.providerCalls + 1 + i)
    && (forall i :: 0 <= i < |calls| ==> calls[i].turn in db.intents)
    && |calls| <= (if prior.providerCalls < cfg.limits.providerCalls
                   then cfg.limits.providerCalls - prior.providerCalls else 0)
  }

  lemma SoundMeansContactedOnce(cfg: Config, prior: Usage, db: Tables, calls: seq<Call>)
    requires Sound(cfg, prior, db, calls)
    ensures ContactedOnce(cfg, prior, db, calls)
  {
    hide PassableTo, ToolsInOrder, ReadsAnswered, BudgetsWithin, CallsFit;
  }

  /** Any number of sessions over one journal and one provider, each of which may die at any
      of its crash points, raise, or finish. */
  method RunSessions(cfg: Config, prior: Usage, sessions: nat) returns (runtime: Runtime)
    ensures ContactedOnce(cfg, prior, runtime.journal.db, runtime.provider.calls)
    ensures BudgetsWithin(runtime.journal.db.budgets, cfg.limits)
  {
    var journal := new Journal();
    var provider := new Provider();
    runtime := new Runtime(cfg, journal, provider);
    NothingRecordedIsSound(cfg, prior);
    for i := 0 to sessions
      invariant fresh(journal) && fresh(provider) && fresh(runtime)
      invariant runtime.cfg == cfg && runtime.journal == journal && runtime.provider == provider
      invariant runtime.JournalSound(prior)
    {
      hide Sound;
      var out, resumed, head, account := runtime.Run(prior);
    }
    SoundMeansContactedOnce(cfg, prior, journal.db, provider.calls);
  }

  // ---- What a restart rebuilds ----------------------------------------------------------

  /** The same but for tokens, cost and whether all usage was reported. */
  predicate SameButSpend(a: Progress, b: Progress) {
    a == b.(used := b.used.(input := a.used.input, output := a.used.output, cost := a.used.cost),
            usageAvailable := a.usageAvailable)
  }

  /** `a` charged what `b` charged, or more where some turn's usage was not reported. */
  predicate Dominates(a: Progress, b: Progress, exact: bool) {
    && SameButSpend(a, b) && SpendOf(b.used).AtMost(SpendOf(a.used))
    && (exact ==> a == b) && (!exact ==> b.used.input < a.used.input)
  }

  /** The same turn, charged alike or, the second time, not at all. */
  predicate ChargedLess(a: Entry, b: Entry) {
    a == b
    || (a.action == b.action && a.latency == b.latency && b.charge == Tokens(0, 0) && a.charge.input >= 1)
  }

  lemma {:induction false} TallyDominates(price: Price, start: Progress, a: seq<Entry>, b: seq<Entry>)
    requires |a| == |b| && forall i :: 0 <= i < |a| ==> ChargedLess(a[i], b[i])
    ensures Dominates(Tally(price, start, a), Tally(price, start, b), a == b)
  {
    hide Advanced, Dominates, ChargedLess;
    if a == [] {
      DominatesItself(start);
    } else {
      var n := |a| - 1;
      TallyDominates(price, start, a[..n], b[..n]);
      assert ChargedLess(a[n], b[n]);
      AdvanceDominates(price, Tally(price, start, a[..n]), Tally(price, start, b[..n]), a[n], b[n], a[..n] == b[..n]);
      assert a == a[..n] + [a[n]] && b == b[..n] + [b[n]];
    }
  }

  lemma DominatesItself(p: Progress)
    ensures Dominates(p, p, true)
  {
  }

  lemma AdvanceDominates(price: Price, p: Progress, q: Progress, e: Entry, f: Entry, exact: bool)
    requires Dominates(p, q, exact) && ChargedLess(e, f)
    ensures Dominates(Advanced(price, p, e), Advanced(price, q, f), exact && e == f)
  {
    CostMonotone(price, f.charge.input, f.charge.output, e.charge.input, e.charge.output);
    hide Cost;
  }

  /** One turn: the two rules charge the same, or the recovery rule charges nothing. */
  lemma TurnRecoveredAlike(cfg: Config, prior: Usage, h: Head, i: nat)
    requires HeadOf(cfg, prior, h) && i < |h.entries| == |h.calls|
    requires Continues(TurnAt(h.db, prior.providerCalls + 1 + i))
    requires TurnAt(h.db, prior.providerCalls + 1 + i).intent.Some?
    ensures var again := RecoveredEntry(TurnAt(h.db, prior.providerCalls + 1 + i));
            && ChargedLess(h.entries[i], again)
            && (h.entries[i] == again <==> i < h.recovered || Reported(h.calls[i].reply))
  {
    hide PassableTo, ToolsInOrder, ReadsAnswered, BudgetsWithin, CallsFit, StandingOf, LastFits;
    var t := prior.providerCalls + 1 + i;
    assert TurnCharged(h.entries[i], TurnAt(h.db, t), h.calls, h.recovered, i);
    assert t in h.db.intents;
    assert h.db.observations[t] == Observe(h.db.intents[t], h.calls[i].reply);
  }

  /** Every reply to a call of the session itself reported its usage. */
  ghost predicate AllReported(h: Head) {
    forall i :: h.recovered <= i < |h.calls| ==> Reported(h.calls[i].reply)
  }

  /** The state of a run and that of its restart: the same evidence and the same counters, and
      the same tokens and cost exactly when all usage was reported. */
  ghost predicate Rebuilds(run: Standing, again: Standing, reported: bool) {
    && again.observations == run.observations && again.evidence == run.evidence
    && SameButSpend(run.progress, again.progress)
    && SpendOf(again.progress.used).AtMost(SpendOf(run.progress.used))
    && (again.progress.used == run.progress.used <==> reported)
    && (reported ==> again == run)
  }

  /** What the journal alone makes of a head of the loop, against what the run had made of it. */
  lemma RestartRebuildsTheRun(cfg: Config, prior: Usage, h: Head)
    requires HeadOf(cfg, prior, h) && AllContinue(TurnsFrom(h.db, prior.providerCalls, |h.db.intents|))
    ensures var again := RecoveredEntries(TurnsFrom(h.db, prior.providerCalls, |h.db.intents|));
            Rebuilds(h.standing, StandingOf(cfg.price, prior, h.db.toolRows, again), AllReported(h))
  {
    hide Sound, Tally, Charges, TurnAt, Continues, RecoveredEntry, Reported, ChargedLess, ReadsAnswered, LastFits,
         Results, Contents;
    var first, n := prior.providerCalls, |h.db.intents|;
    var turns := TurnsFrom(h.db, first, n);
    var again := RecoveredEntries(turns);
    HeadIsSettled(cfg, prior, h.db, h.calls, h.entries, h.recovered);
    forall i | 0 <= i < n
      ensures ChargedLess(h.entries[i], again[i])
      ensures h.entries[i] == again[i] <==> i < h.recovered || Reported(h.calls[i].reply)
    {
      assert turns[i] == TurnAt(h.db, first + 1 + i);
      TurnRecoveredAlike(cfg, prior, h, i);
    }
    assert AllReported(h) <==> h.entries == again;
    TallyDominates(cfg.price, Start(prior), h.entries, again);
  }

  /** Behind a head of the loop nothing can be recorded but a further intent, and what follows it. */
  lemma NothingNew(cfg: Config, prior: Usage, h: Head, db: Tables, calls: seq<Call>)
    requires HeadOf(cfg, prior, h) && Sound(cfg, prior, db, calls)
    requires Extends(h.db, db) && db.intents == h.db.intents
    ensures SameTurns(h.db, db) && db.toolRows == h.db.toolRows && Settled(prior, db)
  {
    hide Charges, StandingOf, LastFits, ReadsAnswered, ToolsInOrder, HasTool, Sound, Contiguous, Passable;
    HeadIsSettled(cfg, prior, h.db, h.calls, h.entries, h.recovered);
    TurnsFinal(cfg, prior, h.db, db, h.calls, calls);
    ReadsFinal(cfg, prior, h.db, db, calls);
  }

  lemma TurnsFinal(cfg: Config, prior: Usage, before: Tables, db: Tables, calls: seq<Call>, calls': seq<Call>)
    requires Sound(cfg, prior, before, calls) && Settled(prior, before) && Sound(cfg, prior, db, calls')
    requires Extends(before, db) && db.intents == before.intents
    ensures db.observations == before.observations && db.actions == before.actions
  {
    hide ReadsAnswered, ToolsInOrder, BudgetsWithin, CallsFit, Witnessed;
    forall t | t in db.observations
      ensures t in before.observations
    {
      assert t in db.intents;
      assert Passable(TurnRecord(None, Lookup(before.observations, t), Lookup(before.actions, t)));
    }
    forall t | t in db.actions
      ensures t in before.actions
    {
      assert t in db.observations && t in db.intents;
      assert Passable(TurnRecord(None, Lookup(before.observations, t), Lookup(before.actions, t)));
    }
  }

  lemma ReadsFinal(cfg: Config, prior: Usage, before: Tables, db: Tables, calls: seq<Call>)
    requires Settled(prior, before) && Sound(cfg, prior, db, calls)
    requires before.toolRows <= db.toolRows && db.actions == before.actions && db.intents == before.intents
    requires db.observations == before.observations
    ensures db.toolRows == before.toolRows && Settled(prior, db)
  {
    hide PassableTo, BudgetsWithin, CallsFit, Witnessed, HasTool;
    if |before.toolRows| < |db.toolRows| {
      var n := |before.toolRows|;
      var r := db.toolRows[n].result;
      assert FromRead(cfg, db.actions, r) && r.turn in db.intents;
      assert HasTool(before.toolRows, r.tool);
      ToolAmong(before.toolRows, db.toolRows, n);
    }
  }

  lemma ToolAmong(front: seq<ToolRow>, rows: seq<ToolRow>, n: nat)
    requires front <= rows && n < |rows| && |front| <= n && HasTool(front, rows[n].result.tool)
    ensures exists i :: 0 <= i < n && rows[i].result.tool == rows[n].result.tool
  {
    var i :| 0 <= i < |front| && front[i].result.tool == rows[n].result.tool;
    assert rows[i] == front[i];
  }

  /** A session runs, stops in whatever way, and another one follows.  If no call was intended
      after the last head of the loop of the first, the second comes to the same head: with the
      same evidence and counters, with the same tokens and cost if and only if all usage was
      reported.  It fails to only by dying or raising, with its actions or calls exhausted, or
      because a turn was passed by a retry, which a restart does not pass. */
  method DieAndRestart(runtime: Runtime, prior: Usage)
    returns (first: Outcome, second: Outcome, ghost left: Tables, ghost head: Option<Head>,
             ghost resumed: Option<Head>)
    requires runtime.JournalSound(prior)
    modifies runtime, runtime.journal, runtime.provider
    ensures runtime.JournalSound(prior) && Extends(left, runtime.journal.db)
    ensures head.Some? ==> HeadOf(runtime.cfg, prior, head.value)
    ensures head.Some? && left.intents == head.value.db.intents && resumed.Some? ==>
              && AllContinue(TurnsFrom(left, prior.providerCalls, |left.intents|))
              && Rebuilds(head.value.standing, resumed.value.standing, AllReported(head.value))
    ensures head.Some? && left.intents == head.value.db.intents && resumed.None? && second.Finished? ==>
              Exhausted(runtime.cfg, second.result)
              || !AllContinue(TurnsFrom(left, prior.providerCalls, |left.intents|))
  {
    hide Sound, Extends, Settled, HeadOf, FinalAccount, Honest, Results, Contents, AllReported, Rebuilds, Tally;
    ghost var account, last;
    first, resumed, head, account := runtime.Run(prior);
    left := runtime.journal.db;
    ghost var calls := runtime.provider.calls;
    second, resumed, last, account := runtime.Run(prior);
    if head.Some? && left.intents == head.value.db.intents {
      NothingNew(runtime.cfg, prior, head.value, left, calls);
      if resumed.Some? {
        Comparable(runtime.cfg, prior, head.value, left, calls, resumed.value);
      } else if second.Finished? && !Exhausted(runtime.cfg, second.result) {
        NotAllContinue(runtime.cfg, prior, left, |account|, second.result);
      }
    }
  }

  lemma Comparable(cfg: Config, prior: Usage, h: Head, left: Tables, calls: seq<Call>, r: Head)
    requires HeadOf(cfg, prior, h) && SameTurns(h.db, left) && left.toolRows == h.db.toolRows
    requires Settled(prior, left) && Resumes(cfg, prior, left, calls, r)
    ensures AllContinue(TurnsFrom(left, prior.providerCalls, |left.intents|))
    ensures Rebuilds(h.standing, r.standing, AllReported(h))
  {
    hide HeadOf, Settled, StandingOf, AllReported, Rebuilds, TurnAt, Continues;
    SameTurnRecords(h.db, left, prior.providerCalls, |left.intents|);
    SameTurnRecords(left, r.db, prior.providerCalls, |left.intents|);
    RestartRebuildsTheRun(cfg, prior, h);
  }

  lemma NotAllContinue(cfg: Config, prior: Usage, db: Tables, n: nat, r: Result)
    requires EndsAtRecorded(cfg, prior, db, n, r) && !Exhausted(cfg, r)
    ensures !AllContinue(TurnsFrom(db, prior.providerCalls, |db.intents|))
  {
    hide Continues, RecoveredTerminal;
    var turns := TurnsFrom(db, prior.providerCalls, |db.intents|);
    assert turns[n - 1] == TurnAt(db, prior.providerCalls + n);
  }

  // ---- What a restart makes of a session that has ended ----------------------------------

  /** How a restart ends at the turn at which a session ended, if it does not read on. */
  function EndsAgain(r: Result): Terminal {
    if r.terminal.ProviderOutcomeUnknown? then ProviderOutcomeUnknown
    else if r.action.None? then MalformedModelOutput
    else match r.action.value.kind
         case NeedsInformation => InformationNeeded
         case NeedsOperator => OperatorNeeded
         case _ => MalformedModelOutput
  }

  predicate ReadsOn(r: Result) {
    r.action.Some? && r.action.value.kind.Read?
  }

  /** The ends that a restart repeats.  A ready response, a denied one and a stop for lack of
      progress are not among them, unless the model itself asked for the operator. */
  predicate EndsAlike(r: Result) {
    || r.terminal in {ProviderOutcomeUnknown, MalformedModelOutput, InformationNeeded}
    || (r.terminal.OperatorNeeded? && r.action.Some? && r.action.value.kind.NeedsOperator?)
  }

  lemma AlikeMeansAgain(runtime: Runtime, r: Result)
    requires runtime.Explained(r) && !ReadsOn(r) && !r.terminal.BudgetExhausted?
    ensures EndsAgain(r) == r.terminal <==> EndsAlike(r)
  {
  }

  /** A result is that of a turn: the last one accounted for. */
  ghost predicate EndsAt(prior: Usage, db: Tables, n: nat, r: Result) {
    && 0 < n <= |db.intents|
    && var turn := TurnAt(db, prior.providerCalls + n);
       && r.action == turn.action && (r.terminal.ProviderOutcomeUnknown? <==> Unresolved(turn))
       && (Continues(turn) <==> ReadsOn(r))
  }

  lemma EndedAtLast(cfg: Config, prior: Usage, db: Tables, calls: seq<Call>, account: seq<Entry>, recovered: nat,
                    r: Result)
    requires Sound(cfg, prior, db, calls) && FinalAccount(cfg, prior, db, calls, account, recovered, r)
    requires !r.terminal.BudgetExhausted?
    ensures EndsAt(prior, db, |account|, r)
  {
    hide Sound, Settles, LastFits, Totals, Contents;
    IncompleteHasNoAction(cfg, prior, db, calls, prior.providerCalls + |account|);
  }

  lemma NamedLast(cfg: Config, prior: Usage, db: Tables, calls: seq<Call>, account: seq<Entry>, recovered: nat,
                  r: Result)
    requires FinalAccount(cfg, prior, db, calls, account, recovered, r)
    ensures NamesLast(db, prior.providerCalls, |account|, r.terminal, r.action)
  {
    hide Settles, LastFits, LastUnknown, NamesLast, Totals, Contents;
  }

  lemma StoppedShort(cfg: Config, prior: Usage, start: Tables, left: Tables, n: nat, r: Result)
    requires SameTurns(start, left) && EndsAtRecorded(cfg, prior, start, n, r) && !r.terminal.BudgetExhausted?
    ensures !Continues(TurnAt(left, prior.providerCalls + n))
  {
    hide Continues, AllContinue, TurnsFrom;
  }

  /** A session that has all recorded turns behind it passed each of them. */
  lemma AllBehind(cfg: Config, prior: Usage, left: Tables, calls: seq<Call>, h: Head, n: nat)
    requires Resumes(cfg, prior, left, calls, h) && 0 < n <= |left.intents|
    ensures AllContinue(TurnsFrom(left, prior.providerCalls, n - 1))
    ensures Continues(TurnAt(left, prior.providerCalls + n))
  {
    hide HeadOf, Settled, StandingOf, Continues;
    SameTurnRecords(left, h.db, prior.providerCalls, |left.intents|);
    var turns := TurnsFrom(left, prior.providerCalls, |left.intents|);
    assert AllContinue(turns) && turns[n - 1] == TurnAt(left, prior.providerCalls + n);
    assert TurnsFrom(left, prior.providerCalls, n - 1) == turns[..n - 1];
  }

  /** Where the second session ends, against where the first did. */
  lemma SecondEnd(cfg: Config, prior: Usage, left: Tables, calls: seq<Call>, n: nat, r: Result, right: Tables, m: nat,
                  r': Result)
    requires Sound(cfg, prior, left, calls) && EndsAt(prior, left, n, r) && (ReadsOn(r) ==> n == |left.intents|)
    requires EndsAtRecorded(cfg, prior, left, m, r') && !Exhausted(cfg, r') && SameTurns(left, right)
    requires NamesLast(right, prior.providerCalls, m, r'.terminal, r'.action)
    ensures if AllContinue(TurnsFrom(left, prior.providerCalls, n - 1))
            then !ReadsOn(r) && r'.terminal == EndsAgain(r) && r'.action == r.action
            else r'.terminal.MalformedModelOutput?
  {
    hide Sound, TurnAt, Continues, Unresolved;
    var first := prior.providerCalls;
    if m < n {
      assert TurnsFrom(left, first, n - 1)[m - 1] == TurnAt(left, first + m);
      PassedByRetry(cfg, prior, left, calls, m);
    } else if m > n {
      BehindContinues(left, first, m - 1, n);
    } else {
      SameTurnRecord(left, right, first + n);
    }
  }

  lemma BehindContinues(db: Tables, first: nat, n: nat, i: nat)
    requires AllContinue(TurnsFrom(db, first, n)) && 0 < i <= n
    ensures Continues(TurnAt(db, first + i))
  {
    hide Continues;
    assert TurnsFrom(db, first, n)[i - 1] == TurnAt(db, first + i);
  }

  lemma SameTurnRecord(a: Tables, b: Tables, turn: nat)
    requires SameTurns(a, b)
    ensures TurnAt(a, turn) == TurnAt(b, turn)
  {
  }

  /** An earlier turn that a restart may not pass was passed by a retry. */
  lemma PassedByRetry(cfg: Config, prior: Usage, db: Tables, calls: seq<Call>, m: nat)
    requires Sound(cfg, prior, db, calls) && 0 < m < |db.intents|
    requires !Continues(TurnAt(db, prior.providerCalls + m))
    ensures RecoveredTerminal(TurnAt(db, prior.providerCalls + m)) == MalformedModelOutput
  {
    hide Contiguous, Witnessed, ToolsInOrder, ReadsAnswered, BudgetsWithin, CallsFit;
    var t := prior.providerCalls + m;
    assert Passable(TurnRecord(None, Lookup(db.observations, t), Lookup(db.actions, t)));
  }

  /** A session ends with a result, not for its budget, and another follows and ends, its actions
      and calls not exhausted.  If the first passed no turn by a retry, the second reads on where
      the last action was a read, whether that was denied, timed out or stopped for lack of
      progress; and otherwise ends at the same turn, without contact, in the same way if and
      only if that way is one of `EndsAlike`.  After a retry it ends there as malformed. */
  method EndAndRestart(runtime: Runtime, prior: Usage)
    returns (first: Outcome, second: Outcome, ghost left: Tables, ghost calls: seq<Call>,
             ghost account: seq<Entry>, ghost resumed: Option<Head>)
    requires runtime.JournalSound(prior)
    modifies runtime, runtime.journal, runtime.provider
    ensures first.Finished? && !first.result.terminal.BudgetExhausted? ==> 0 < |account| <= |left.intents|
    ensures first.Finished? && !first.result.terminal.BudgetExhausted?
            && second.Finished? && !Exhausted(runtime.cfg, second.result) ==>
              if !AllContinue(TurnsFrom(left, prior.providerCalls, |account| - 1))
              then resumed.None? && runtime.provider.calls == calls && second.result.terminal.MalformedModelOutput?
              else if ReadsOn(first.result)
              then resumed.Some?
              else && resumed.None? && runtime.provider.calls == calls
                   && second.result.action == first.result.action
                   && second.result.terminal == EndsAgain(first.result)
                   && (second.result.terminal == first.result.terminal <==> EndsAlike(first.result))
  {
    hide Sound, Extends, Settled, HeadOf, Honest, Results, Contents, Tally, AllContinue, EndsAtRecorded, TurnsFrom,
         Resumes, EndsAgain, EndsAlike, FinalAccount, Reproduced, ReplyVerdict, Obeys, Reservable, SpendKeptWithin;
    ghost var start, head, again, other := runtime.journal.db, None, None, [];
    first, again, head, account := runtime.Run(prior);
    left, calls := runtime.journal.db, runtime.provider.calls;
    second, resumed, head, other := runtime.Run(prior);
    if first.Finished? && !first.result.terminal.BudgetExhausted? {
      EndedAtLast(runtime.cfg, prior, left, calls, account, |start.intents|, first.result);
      if again.None? {
        StoppedShort(runtime.cfg, prior, start, left, |account|, first.result);
      }
      if second.Finished? && !Exhausted(runtime.cfg, second.result) {
        if resumed.Some? {
          AllBehind(runtime.cfg, prior, left, calls, resumed.value, |account|);
        } else {
          NamedLast(runtime.cfg, prior, runtime.journal.db, runtime.provider.calls, other, |left.intents|,
                    second.result);
          SecondEnd(runtime.cfg, prior, left, calls, |account|, first.result, runtime.journal.db, |other|,
                    second.result);
          if !ReadsOn(first.result) {
            AlikeMeansAgain(runtime, first.result);
          }
        }
      }
    }
  }

  /** At every such head, too, tokens and cost are within their limits while usage is honest. */
  lemma HeadWithinWhileHonest(cfg: Config, prior: Usage, h: Head)
    requires HeadOf(cfg, prior, h) && Honest(h.db.intents, h.calls, prior.providerCalls)
    ensures SpendKeptWithin(cfg, prior, h.standing.progress.used)
  {
    hide Sound, Charges, Settles, Honest, LastFits, Tally, ReadsAnswered;
    ChargesSettle(h.entries, h.db, prior.providerCalls, h.calls, h.recovered);
    WithinWhileHonest(cfg, prior, h.db, h.calls, h.entries, h.recovered);
  }

  // ---- What usage can do to the accounts --------------------------------------------------

  const NOTHING_USED := Usage(0, 0, 0, 0, 0, 0, 0, 0)

  /** A session whose only turn reads `tool`: the head of the loop behind it. */
  function AfterOneRead(cfg: Config, tool: Tool, reserved: Tokens, reply: Reply): Head
    requires tool in cfg.sources
  {
    var intent := Intent(1, reserved);
    var db := Tables(map[1 := intent], map[1 := Observe(intent, reply)], map[1 := Action(1, Read(tool), "")],
                     [ToolRow(1, ToolResult(1, tool, cfg.sources[tool].content))], map[]);
    var entries := [FreshEntry(TurnAt(db, 1), reply)];
    Head(StandingOf(cfg.price, NOTHING_USED, db.toolRows, entries), 0, entries, 0, db, [Call(1, reply)])
  }

  lemma NothingSpentFirst(cfg: Config, intents: map<nat, Intent>, observations: map<nat, Observation>)
    ensures JournalSpend(cfg, NOTHING_USED, intents, observations, 0) == Spend(0, 0, 0)
  {
  }

  lemma OneReadIsSound(cfg: Config, tool: Tool, reserved: Tokens, reply: Reply)
    requires tool in cfg.sources && reserved.input >= 1 && cfg.limits.providerCalls >= 1
    requires FitsBudget(cfg, Spend(0, 0, 0), reserved) && StatusOf(reply).Completed?
    ensures var h := AfterOneRead(cfg, tool, reserved, reply); Sound(cfg, NOTHING_USED, h.db, h.calls)
    ensures HasTool(AfterOneRead(cfg, tool, reserved, reply).db.toolRows, tool)
  {
    hide StandingOf, FreshEntry, TurnAt, FitsBudget, JournalSpend;
    var db := AfterOneRead(cfg, tool, reserved, reply).db;
    assert db.observations[1].status.Completed?;
    assert HasTool(db.toolRows, tool) by {
      assert db.toolRows[0].result.tool == tool;
    }
    NothingSpentFirst(cfg, db.intents, db.observations);
    assert CallFits(cfg, NOTHING_USED, db.intents, db.observations, 0);
    hide Observe, HasTool, CallFits;
  }

  lemma OneReadIsHead(cfg: Config, tool: Tool, reserved: Tokens, reply: Reply)
    requires tool in cfg.sources && reserved.input >= 1 && cfg.limits.providerCalls >= 1
    requires FitsBudget(cfg, Spend(0, 0, 0), reserved) && StatusOf(reply).Completed?
    ensures var h := AfterOneRead(cfg, tool, reserved, reply);
            && HeadOf(cfg, NOTHING_USED, h) && AllContinue(TurnsFrom(h.db, 0, 1))
            && h.standing.progress.used.input == FreshCharge(reserved, reply).input
            && h.standing.progress.used.output == FreshCharge(reserved, reply).output
  {
    OneReadIsSound(cfg, tool, reserved, reply);
    hide Sound, HasTool, Cost, FitsBudget, FreshCharge;
    var h := AfterOneRead(cfg, tool, reserved, reply);
    assert [] + h.entries == h.entries;
    TallyStep(cfg.price, Start(NOTHING_USED), [], h.entries[0]);
    assert h.entries[..0] == [];
    assert TurnCharged(h.entries[0], TurnAt(h.db, 1), h.calls, 0, 0);
  }

  /** A completed reply without usage: its head is sound, and a restart forgets the charge. */
  lemma UnreportedUsageIsForgotten(cfg: Config, tool: Tool, reserved: Tokens, reply: Reply)
    requires tool in cfg.sources && reserved.input >= 1 && cfg.limits.providerCalls >= 1
    requires FitsBudget(cfg, Spend(0, 0, 0), reserved)
    requires StatusOf(reply).Completed? && !Reported(reply)
    ensures var h := AfterOneRead(cfg, tool, reserved, reply);
            var turns := TurnsFrom(h.db, 0, 1);
            && HeadOf(cfg, NOTHING_USED, h) && AllContinue(turns)
            && h.standing.progress.used.input == reserved.input
            && StandingOf(cfg.price, NOTHING_USED, h.db.toolRows, RecoveredEntries(turns)).progress.used.input == 0
  {
    OneReadIsHead(cfg, tool, reserved, reply);
    hide Cost, HeadOf, FitsBudget;
    var h := AfterOneRead(cfg, tool, reserved, reply);
    var again := RecoveredEntries(TurnsFrom(h.db, 0, 1));
    assert again == [RecoveredEntry(TurnAt(h.db, 1))];
    TallyStep(cfg.price, Start(NOTHING_USED), [], again[0]);
    assert [] + again == again;
  }

  /** A reply that reports more than the limit: its head is sound too, and over the limit. */
  lemma ReportedUsageMayOutrunLimits(cfg: Config, tool: Tool, reserved: Tokens, reply: Reply)
    requires tool in cfg.sources && reserved.input >= 1 && cfg.limits.providerCalls >= 1
    requires FitsBudget(cfg, Spend(0, 0, 0), reserved)
    requires StatusOf(reply).Completed? && Reported(reply) && reply.result.usage.input > cfg.totalTokenLimit
    ensures var h := AfterOneRead(cfg, tool, reserved, reply);
            && HeadOf(cfg, NOTHING_USED, h) && !Honest(h.db.intents, h.calls, 0)
            && !SpendKeptWithin(cfg, NOTHING_USED, h.standing.progress.used)
  {
    OneReadIsHead(cfg, tool, reserved, reply);
    hide HeadOf, StandingOf;
    var h := AfterOneRead(cfg, tool, reserved, reply);
    assert !HonestCall(h.db.intents[0 + 1 + 0].reservation, h.calls[0].reply);
  }
}
