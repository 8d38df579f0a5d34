/** The bounded proposal loop of the QQ assist workflow, with the points at which its
    process may die.

    The journal and the provider outlive a session; every other field is volatile and is
    set anew by `Run`.  `if *` marks a place where the process may stop: whatever was
    written stays written, and a later `Run` has to make sense of it. */
module QQModelRuntime {
  import opened Common
  import opened Money
  import opened QQModelJournal
  import opened QQModelTurns
  import opened QQModelAccounts
  import opened QQModelVerdicts

  datatype Failure = BudgetRefused | EvidenceRefused | PromptTooLarge | SourceMissing | RequiredListTooShort

  /** How a session ends: with a result, with an exception, or by dying. */
  datatype Outcome = Finished(result: Result) | Raised(failure: Failure) | Crashed

  /** Four characters a token, and at least one. */
  function EstimatedTokens(characters: nat): (n: nat)
    ensures n >= 1 && characters <= 4 * n && (n > 1 ==> 4 * (n - 1) < characters)
  {
    var rounded := (characters + 3) / 4;
    if rounded > 1 then rounded else 1
  }

  lemma HasReadIsHasTool(rows: seq<ToolRow>, tool: Tool)
    ensures HasRead(Results(rows), tool) <==> HasTool(rows, tool)
  {
    if HasTool(rows, tool) {
      var i :| 0 <= i < |rows| && rows[i].result.tool == tool;
      assert Results(rows)[i].tool == tool;
    }
  }

  /** The evidence follows the required order from its beginning. */
  predicate FollowsRequired(observations: seq<ToolResult>, required: seq<Tool>) {
    && |observations| <= |required|
    && forall i :: 0 <= i < |observations| ==> observations[i].tool == required[i]
  }

  predicate NamesEachTool(required: seq<Tool>) {
    forall tool: Tool :: tool in required
  }

  lemma AllToolsRead(observations: seq<ToolResult>, required: seq<Tool>, tool: Tool)
    requires NamesEachTool(required) && FollowsRequired(observations, required)
    requires |observations| >= |required|
    ensures HasRead(observations, tool)
  {
    assert tool in required;
    var i :| 0 <= i < |required| && required[i] == tool;
    assert observations[i].tool == tool;
  }

  /** A read is answered once its tool has a row. */
  lemma ReadAnswered(db: Tables, db': Tables, turn: nat, tool: Tool)
    requires db'.actions == db.actions && db.toolRows <= db'.toolRows
    requires turn in db.actions && db.actions[turn].kind == Read(tool) && HasTool(db'.toolRows, tool)
    requires ReadsAnswered(db.actions, db.toolRows, turn - 1)
    ensures ReadsAnswered(db'.actions, db'.toolRows, turn)
  {
    forall t | HasTool(db.toolRows, t)
      ensures HasTool(db'.toolRows, t)
    {
      var i :| 0 <= i < |db.toolRows| && db.toolRows[i].result.tool == t;
      assert db'.toolRows[i] == db.toolRows[i];
    }
  }

  lemma NoActionNoRead(db: Tables, turn: nat)
    requires turn !in db.actions && ReadsAnswered(db.actions, db.toolRows, turn - 1)
    ensures ReadsAnswered(db.actions, db.toolRows, turn)
  {
    hide HasTool;
  }

  lemma NewAction(db: Tables, db': Tables, action: Action)
    requires action.turn !in db.actions && db' == db.(actions := db.actions[action.turn := action])
    requires ReadsAnswered(db.actions, db.toolRows, action.turn - 1)
    ensures Extends(db, db') && ReadsAnswered(db'.actions, db'.toolRows, action.turn - 1)
  {
    hide HasTool;
  }

  lemma ExtendsTransitive(a: Tables, b: Tables, c: Tables)
    requires Extends(a, b) && Extends(b, c)
    ensures Extends(a, c)
  {
  }

  lemma ExtendsSelf(db: Tables)
    ensures Extends(db, db)
  {
  }

  lemma SettledRead(prior: Usage, db: Tables, turn: nat, tool: Tool)
    requires Settled(prior, db) && turn <= prior.providerCalls + |db.intents|
    requires turn in db.actions && db.actions[turn].kind == Read(tool)
    ensures HasTool(db.toolRows, tool)
  {
    hide HasTool;
  }

  lemma NoResults()
    ensures Results([]) == [] && Contents([]) == []
  {
  }

  lemma AllToolsReadForall(observations: seq<ToolResult>, required: seq<Tool>)
    requires NamesEachTool(required) && FollowsRequired(observations, required)
    requires |observations| >= |required|
    ensures forall tool :: HasRead(observations, tool)
  {
    forall tool
      ensures HasRead(observations, tool)
    {
      AllToolsRead(observations, required, tool);
    }
  }

  lemma EndsAtSame(cfg: Config, prior: Usage, db: Tables, db': Tables, n: nat, r: Result)
    requires SameTurns(db, db') && EndsAtRecorded(cfg, prior, db', n, r)
    ensures EndsAtRecorded(cfg, prior, db, n, r)
  {
    if n > 0 {
      SameTurnRecords(db, db', prior.providerCalls, n - 1);
    }
  }

  /** A snapshot is in the journal under its number, unless that was taken. */
  predicate Saved(before: map<nat, Snapshot>, after: map<nat, Snapshot>, sequence: nat, snapshot: Snapshot) {
    after == if sequence in before then before else before[sequence := snapshot]
  }

  predicate SavedIn(before: map<nat, Snapshot>, after: map<nat, Snapshot>, sequence: nat, snapshot: Snapshot) {
    sequence in after && (sequence !in before ==> after[sequence] == snapshot)
  }

  lemma SavedStays(before: map<nat, Snapshot>, saved: Tables, after: Tables, sequence: nat, snapshot: Snapshot)
    requires Saved(before, saved.budgets, sequence, snapshot) && Extends(saved, after)
    ensures SavedIn(before, after.budgets, sequence, snapshot)
  {
  }

  lemma SameLength(rows: seq<ToolRow>)
    ensures |Results(rows)| == |Contents(rows)|
  {
  }

  /** What the next call would be reserved for, and when. */
  datatype Ask = Ask(characters: nat, elapsed: nat)

  predicate Reservable(cfg: Config, used: Usage, ask: Ask) {
    && FitsBudget(cfg, SpendOf(used), ReservationFor(cfg, ask.characters)) && cfg.limits.wallTime > ask.elapsed
  }

  function ReservationFor(cfg: Config, characters: nat): Tokens {
    Tokens(EstimatedTokens(characters), if cfg.limits.output > 600 then 600 else cfg.limits.output)
  }

  lemma EndsExhausted(cfg: Config, prior: Usage, db: Tables, n: nat, r: Result)
    requires Exhausted(cfg, r) && r.candidate == None
    ensures EndsAtRecorded(cfg, prior, db, n, r)
  {
  }

  /** The tool results of the journal are as they were, or one more that was required next. */
  predicate AtMostNextRequired(before: seq<ToolResult>, after: seq<ToolResult>, required: seq<Tool>) {
    || after == before
    || (|before| < |required| && |after| == |before| + 1 && after[..|before|] == before
        && after[|before|].tool == required[|before|])
  }

  lemma NoNewResult(results: seq<ToolResult>, required: seq<Tool>)
    ensures AtMostNextRequired(results, results, required)
  {
  }

  class Runtime {
    const cfg: Config
    const journal: Journal
    const provider: Provider

    var used: Usage
    var latency: nat
    var usageAvailable: bool
    var pessimistic: bool
    var previousAction: Option<ActionType>
    var retryCount: nat
    var observations: seq<ToolResult>
    var evidenceHashes: seq<Hash>
    var history: seq<HistoryItem>
    ghost var asked: Ask

    constructor (cfg: Config, journal: Journal, provider: Provider)
      ensures this.cfg == cfg && this.journal == journal && this.provider == provider
    {
      this.cfg, this.journal, this.provider := cfg, journal, provider;
      used := Usage(0, 0, 0, 0, 0, 0, 0, 0);
      latency, usageAvailable, pessimistic := 0, true, false;
      previousAction, retryCount := None, 0;
      observations, evidenceHashes, history := [], [], [];
      asked := Ask(0, 0);
    }

    ghost predicate JournalSound(prior: Usage)
      reads this, journal, provider
    {
      Sound(cfg, prior, journal.db, provider.calls)
    }

    /** The session's evidence lists are those of the journal. */
    ghost predicate EvidenceLoaded(prior: Usage)
      reads this, journal
    {
      && observations == Results(journal.db.toolRows)
      && evidenceHashes == Contents(journal.db.toolRows)
      && used.tools == prior.tools + |journal.db.toolRows|
    }

    /** What the turns have made of the session; reads are counted with its evidence. */
    ghost function CurrentProgress(prior: Usage): Progress
      reads this
    {
      Progress(used.(tools := prior.tools), latency, usageAvailable, previousAction, history)
    }

    ghost function CurrentStanding(): Standing
      reads this
    {
      Standing(Progress(used, latency, usageAvailable, previousAction, history), observations, evidenceHashes)
    }

    /** `entries` accounts for the turns behind the session, the first `recovered` of them
        found in the journal. */
    ghost predicate Accounted(prior: Usage, entries: seq<Entry>, recovered: nat)
      reads this, journal, provider
    {
      && |entries| <= |journal.db.intents|
      && recovered <= |journal.db.intents|
      && Charges(entries, journal.db, prior.providerCalls, provider.calls, recovered)
      && ReadsAnswered(journal.db.actions, journal.db.toolRows, prior.providerCalls + |entries|)
    }

    /** The head of the loop. */
    ghost predicate AtHead(prior: Usage, entries: seq<Entry>, recovered: nat)
      reads this, journal, provider
    {
      && JournalSound(prior) && EvidenceLoaded(prior) && Accounted(prior, entries, recovered)
      && LastFits(cfg, prior, journal.db, entries, recovered)
      && !pessimistic
      && CurrentProgress(prior) == Tally(cfg.price, Start(prior), entries)
      && used.providerCalls == prior.providerCalls + |entries|
      && (|entries| < |journal.db.intents| ==> recovered == |journal.db.intents|)
    }

    /** The counters are those of the account, whose last turn the session may not pass. */
    ghost predicate Balanced(prior: Usage, account: seq<Entry>, recovered: nat)
      reads this, journal, provider
    {
      && JournalSound(prior) && EvidenceLoaded(prior) && |account| <= |journal.db.intents|
      && Settles(account, journal.db, prior.providerCalls, provider.calls, recovered)
      && LastFits(cfg, prior, journal.db, account, recovered)
      && SameTotals(CurrentProgress(prior), Tally(cfg.price, Start(prior), account))
      && (pessimistic <==> LastUnknown(journal.db, prior.providerCalls, |account|))
    }

    /** A session that has ended accounts for its result. */
    ghost predicate Reports(prior: Usage, out: Option<Outcome>, account: seq<Entry>, recovered: nat)
      reads this, journal, provider
    {
      out.Some? && out.value.Finished? ==>
        FinalAccount(cfg, prior, journal.db, provider.calls, account, recovered, out.value.result)
    }

    lemma HeadBalanced(prior: Usage, entries: seq<Entry>, recovered: nat)
      requires AtHead(prior, entries, recovered)
      ensures Balanced(prior, entries, recovered)
    {
      hide Sound, Charges, Settles, LastFits, LastUnknown, Tally, ReadsAnswered;
      ChargesSettle(entries, journal.db, prior.providerCalls, provider.calls, recovered);
      PassedIsKnown(entries, journal.db, prior.providerCalls, provider.calls, recovered);
    }

    lemma HeadTaken(prior: Usage, entries: seq<Entry>, recovered: nat)
      requires AtHead(prior, entries, recovered) && |entries| == |journal.db.intents|
      ensures HeadOf(cfg, prior, Head(CurrentStanding(), retryCount, entries, recovered, journal.db, provider.calls))
    {
      hide Sound, Charges, LastFits, Tally, ReadsAnswered, Results, Contents;
    }

    /** A turn taken from the journal is accounted for by what is recorded of it. */
    lemma RecoveredBalanced(prior: Usage, turn: nat, entries: seq<Entry>, recovered: nat)
      requires JournalSound(prior) && EvidenceLoaded(prior) && Accounted(prior, entries, recovered)
      requires turn == prior.providerCalls + |entries| + 1 && |entries| < |journal.db.intents| == recovered
      requires turn in journal.db.intents
      requires SameTotals(CurrentProgress(prior),
                          Advanced(cfg.price, Tally(cfg.price, Start(prior), entries),
                                   RecoveredEntry(TurnAt(journal.db, turn))))
      requires pessimistic <==> Unresolved(TurnAt(journal.db, turn))
      ensures Balanced(prior, entries + [RecoveredEntry(TurnAt(journal.db, turn))], recovered)
    {
      hide Sound, Charges, Settles, Tally, ReadsAnswered, RecoveredEntry, Advanced, Unresolved, Results, Contents;
      var e := RecoveredEntry(TurnAt(journal.db, turn));
      LastSettles(entries, journal.db, prior.providerCalls, provider.calls, recovered, e);
      TallyStep(cfg.price, Start(prior), entries, e);
    }

    /** And a turn put to the provider by its reply. */
    lemma FreshBalanced(prior: Usage, turn: nat, entries: seq<Entry>, recovered: nat, reply: Reply)
      requires InTurn(prior, entries, recovered, turn, reply, true)
      requires SameTotals(CurrentProgress(prior),
                          Advanced(cfg.price, Tally(cfg.price, Start(prior), entries),
                                   FreshEntry(TurnAt(journal.db, turn), reply)))
      requires pessimistic <==> StatusOf(reply).OutcomeUnknown?
      ensures Balanced(prior, entries + [FreshEntry(TurnAt(journal.db, turn), reply)], recovered)
    {
      hide Sound, Charges, Settles, Tally, ReadsAnswered, FreshEntry, Advanced, FitsBudget, Results, Contents,
           StatusOf;
      var e := FreshEntry(TurnAt(journal.db, turn), reply);
      LastSettles(entries, journal.db, prior.providerCalls, provider.calls, recovered, e);
      TallyStep(cfg.price, Start(prior), entries, e);
      assert (entries + [e])[..|entries|] == entries;
    }

    method SaveBudget(prior: Usage, sequence: nat) returns (ok: bool)
      requires JournalSound(prior)
      modifies journal
      ensures ok <==> used.Within(cfg.limits)
      ensures journal.db == old(journal.db).(budgets := journal.db.budgets)
      ensures ok ==> Saved(old(journal.db.budgets), journal.db.budgets, sequence, Snapshot(used, pessimistic))
      ensures Extends(old(journal.db), journal.db)
      ensures JournalSound(prior)
      ensures Settled(prior, old(journal.db)) ==> Settled(prior, journal.db)
    {
      hide Sound, Settled;
      ghost var before := journal.db;
      ok := journal.AppendBudget(sequence, Snapshot(used, pessimistic), cfg.limits);
      if ok {
        SoundAfterBudget(cfg, prior, before, provider.calls, sequence, Snapshot(used, pessimistic));
      }
    }

    /** Close the session with a last budget snapshot. */
    method Finish(prior: Usage, terminal: Terminal, reason: string, candidate: Option<string>,
                  action: Option<Action>, ghost account: seq<Entry>, ghost recovered: nat)
      returns (out: Option<Outcome>)
      requires Balanced(prior, account, recovered)
      requires terminal.ProviderOutcomeUnknown? <==> pessimistic
      requires NamesLast(journal.db, prior.providerCalls, |account|, terminal, action)
      modifies this`used, journal
      ensures JournalSound(prior)
      ensures Extends(old(journal.db), journal.db)
      ensures journal.db == old(journal.db).(budgets := journal.db.budgets)
      ensures used == old(used).(wallTime := used.wallTime)
      ensures used.wallTime <= cfg.limits.wallTime
              && (old(used).wallTime <= used.wallTime || used.wallTime == cfg.limits.wallTime)
      ensures out in {Some(Crashed), Some(Raised(BudgetRefused))}
              || (out.Some? && out.value.Finished?
                  && var r := out.value.result;
                     r.terminal == terminal && r.candidate == candidate && r.evidence == evidenceHashes
                     && r.action == action && r.reason == reason && r.pessimistic == pessimistic
                     && r.used == used && used.Within(cfg.limits)
                     && Saved(old(journal.db.budgets), journal.db.budgets, r.used.providerCalls * 2 + 2,
                              Snapshot(r.used, r.pessimistic)))
      ensures Follows(out, EndsWith(terminal, reason, candidate))
      ensures Reports(prior, out, account, recovered)
    {
      hide Sound, Extends, Settles, LastFits, LastUnknown, NamesLast, Tally, Results, Contents;
      var elapsed: nat :| true;
      used := used.(wallTime := if used.wallTime + elapsed < cfg.limits.wallTime
                                then used.wallTime + elapsed else cfg.limits.wallTime);
      var sequence := used.providerCalls * 2 + 2;
      ghost var before := journal.db;
      var ok := SaveBudget(prior, sequence);
      if !ok {
        return Some(Raised(BudgetRefused));
      }
      AccountKept(cfg, prior, before, journal.db, provider.calls, account, recovered);
      if * {
        return Some(Crashed);
      }
      return Some(Finished(Result(terminal, reason, candidate, evidenceHashes, action, used, latency,
                                  usageAvailable, pessimistic)));
    }

    method ChargeTokens(charge: Tokens)
      modifies this`used
      ensures used == old(used).(input := old(used).input + charge.input,
                                 output := old(used).output + charge.output,
                                 cost := old(used).cost + Cost(cfg.price, charge.input, charge.output))
    {
      used := used.(input := used.input + charge.input, output := used.output + charge.output,
                    cost := used.cost + Cost(cfg.price, charge.input, charge.output));
    }

    method RecordAction(turn: nat, kind: ActionType)
      modifies this`used, this`previousAction, this`history
      ensures used == old(used).(actions := old(used).actions + 1,
                                 noProgress := old(used).noProgress
                                               + if old(previousAction) == Some(kind) then 1 else 0)
      ensures previousAction == Some(kind)
      ensures history == old(history) + [HistoryItem(turn, kind)]
    {
      used := used.(actions := used.actions + 1);
      if Some(kind) == previousAction {
        used := used.(noProgress := used.noProgress + 1);
      }
      previousAction := Some(kind);
      history := history + [HistoryItem(turn, kind)];
    }

    // ---- Starting, and turns found in the journal ------------------------------------

    /** Read the durable tool results back; each must name a source of the request. */
    method LoadToolResults(prior: Usage) returns (ok: bool)
      requires observations == [] && evidenceHashes == [] && used == prior
      modifies this`observations, this`evidenceHashes, this`used
      ensures ok <==> forall i :: 0 <= i < |journal.db.toolRows| ==> journal.db.toolRows[i].result.tool in cfg.sources
      ensures ok ==> EvidenceLoaded(prior) && used == prior.(tools := used.tools)
    {
      var rows := journal.db.toolRows;
      var i := 0;
      while i < |rows|
        invariant 0 <= i <= |rows|
        invariant observations == Results(rows[..i]) && evidenceHashes == Contents(rows[..i])
        invariant rows == journal.db.toolRows && forall j :: 0 <= j < i ==> rows[j].result.tool in cfg.sources
        invariant used == prior.(tools := prior.tools + i)
      {
        var result := rows[i].result;
        if result.tool !in cfg.sources {
          return false;
        }
        observations := observations + [result];
        evidenceHashes := evidenceHashes + [result.content];
        used := used.(tools := used.tools + 1);
        i := i + 1;
      }
      assert rows[..i] == rows;
      return true;
    }

    /** Volatile state is built anew, and the durable tool results are read back. */
    method Restart(prior: Usage) returns (out: Option<Outcome>)
      requires JournalSound(prior)
      modifies this, journal
      ensures JournalSound(prior) && Extends(old(journal.db), journal.db)
      ensures journal.db == old(journal.db).(budgets := journal.db.budgets)
      ensures Settled(prior, old(journal.db)) ==> Settled(prior, journal.db)
      ensures out in {None, Some(Crashed), Some(Raised(BudgetRefused)), Some(Raised(SourceMissing))}
      ensures out.None? ==> AtHead(prior, [], |journal.db.intents|) && retryCount == 0
      ensures out.None? ==> Saved(old(journal.db.budgets), journal.db.budgets, 0, Snapshot(prior, false))
    {
      hide Sound, Extends, Settled, Charges, ReadsAnswered, Tally, Results, Contents, LastFits;
      observations, evidenceHashes, history := [], [], [];
      previousAction, retryCount := None, 0;
      usageAvailable, pessimistic := true, false;
      used, latency := prior, 0;
      var ok := SaveBudget(prior, 0);
      if !ok {
        return Some(Raised(BudgetRefused));
      }
      if * {
        return Some(Crashed);
      }
      var loaded := LoadToolResults(prior);
      if !loaded {
        return Some(Raised(SourceMissing));
      }
      EarlierReadsAnswered(cfg, prior, journal.db, provider.calls);
      NothingCharged(cfg, prior, journal.db, provider.calls, |journal.db.intents|);
      return None;
    }

    /** Charge a recorded turn: recorded usage, or the reservation if nothing is known of it. */
    method ChargeRecorded(prior: Usage, turn: nat)
      requires turn in journal.db.intents && !pessimistic
      modifies this`used, this`latency, this`usageAvailable, this`pessimistic
      ensures var e := RecoveredEntry(TurnAt(journal.db, turn));
              CurrentProgress(prior)
              == Charged(cfg.price, old(CurrentProgress(prior)), e.charge, e.latency, e.reported)
      ensures used.tools == old(used).tools && used.providerCalls == old(used).providerCalls + 1
      ensures pessimistic ==> Unresolved(TurnAt(journal.db, turn))
      ensures turn !in journal.db.observations ==> pessimistic
    {
      hide Cost;
      var intent := journal.db.intents[turn];
      used := used.(providerCalls := used.providerCalls + 1);
      if turn !in journal.db.observations {
        ChargeTokens(intent.reservation);
        usageAvailable, pessimistic := false, true;
        return;
      }
      var observation := journal.db.observations[turn];
      var charge := observation.usage;
      if observation.status.OutcomeUnknown? && charge == Tokens(0, 0) {
        charge := observation.reservation;
        usageAvailable, pessimistic := false, true;
      }
      ChargeTokens(charge);
      latency := latency + observation.latency;
    }

    /** Take a turn from the journal, without contacting the provider. */
    method ReplayTurn(prior: Usage, turn: nat, ghost entries: seq<Entry>, ghost recovered: nat)
      returns (out: Option<Outcome>, ghost entries': seq<Entry>)
      requires AtHead(prior, entries, recovered) && turn == used.providerCalls + 1
      requires turn in journal.db.intents
      modifies this, journal
      ensures JournalSound(prior) && Extends(old(journal.db), journal.db)
      ensures SameTurns(old(journal.db), journal.db)
      ensures retryCount == old(retryCount)
      ensures entries' == entries + [RecoveredEntry(old(TurnAt(journal.db, turn)))]
      ensures Reports(prior, out, entries', recovered)
      ensures out.Some? && out.value.Finished? ==>
                && !Continues(old(TurnAt(journal.db, turn))) && Explained(out.value.result)
                && out.value.result.terminal == RecoveredTerminal(old(TurnAt(journal.db, turn)))
                && out.value.result.reason == RecoveredReason(old(TurnAt(journal.db, turn)))
                && out.value.result.candidate == None
      ensures out.None? ==>
                && AtHead(prior, entries', recovered)
                && (Settled(prior, old(journal.db)) ==> journal.db == old(journal.db))
    {
      hide Sound, Extends, ReadsAnswered, Charges, HasTool, Tally, Settled, Settles, LastFits, LastUnknown, Charged,
           FinalAccount, Results, Contents, Advanced, RecoveredEntry, RecoveredTerminal, Unresolved;
      TurnInBlock(cfg, prior, journal.db, provider.calls, turn);
      IncompleteHasNoAction(cfg, prior, journal.db, provider.calls, turn);
      RecordedTurn(cfg.price, CurrentProgress(prior), journal.db, turn);
      entries' := entries + [RecoveredEntry(TurnAt(journal.db, turn))];
      ChargeRecorded(prior, turn);
      if turn !in journal.db.observations {
        RecoveredBalanced(prior, turn, entries, recovered);
        out := Finish(prior, ProviderOutcomeUnknown, "recovery_missing_provider_observation", None, None, entries',
                      recovered);
        return;
      }
      var observation := journal.db.observations[turn];
      if !observation.status.Completed? {
        var unknown := observation.status.OutcomeUnknown?;
        pessimistic := pessimistic || unknown;
        RecoveredBalanced(prior, turn, entries, recovered);
        out := Finish(prior, if unknown then ProviderOutcomeUnknown else MalformedModelOutput,
                      if observation.classification.Some? then observation.classification.value
                      else "recovery_provider_observation_not_completed", None, None, entries', recovered);
        return;
      }
      if turn !in journal.db.actions {
        RecoveredBalanced(prior, turn, entries, recovered);
        out := Finish(prior, MalformedModelOutput, "recovery_action_evidence_missing", None, None, entries',
                      recovered);
        return;
      }
      out := ReplayAction(prior, turn, journal.db.actions[turn], entries, recovered);
    }

    /** Take the recorded action of a recovered turn; only a read lets the session go on. */
    method ReplayAction(prior: Usage, turn: nat, action: Action, ghost entries: seq<Entry>, ghost recovered: nat)
      returns (out: Option<Outcome>)
      requires JournalSound(prior) && EvidenceLoaded(prior) && Accounted(prior, entries, recovered)
      requires !pessimistic && turn == prior.providerCalls + |entries| + 1
      requires |entries| < |journal.db.intents| == recovered && turn in journal.db.intents
      requires turn in journal.db.observations && journal.db.observations[turn].status.Completed?
      requires turn in journal.db.actions && journal.db.actions[turn] == action
      requires var e := RecoveredEntry(TurnAt(journal.db, turn));
               CurrentProgress(prior)
               == Charged(cfg.price, Tally(cfg.price, Start(prior), entries), e.charge, e.latency, e.reported)
      requires used.providerCalls == turn
      modifies this, journal
      ensures JournalSound(prior) && Extends(old(journal.db), journal.db)
      ensures SameTurns(old(journal.db), journal.db)
      ensures retryCount == old(retryCount)
      ensures Reports(prior, out, entries + [RecoveredEntry(old(TurnAt(journal.db, turn)))], recovered)
      ensures out.Some? && out.value.Finished? ==>
                && !action.kind.Read? && Explained(out.value.result)
                && out.value.result.terminal == RecoveredTerminal(old(TurnAt(journal.db, turn)))
                && out.value.result.reason == RecoveredReason(old(TurnAt(journal.db, turn)))
                && out.value.result.candidate == None
      ensures out.None? ==>
                && AtHead(prior, entries + [RecoveredEntry(old(TurnAt(journal.db, turn)))], recovered)
                && (Settled(prior, old(journal.db)) ==> journal.db == old(journal.db))
    {
      hide Sound, Extends, ReadsAnswered, Charges, HasTool, Tally, Settled, Settles, LastFits, LastUnknown, Charged,
           FinalAccount, Results, Contents, RecoveredTerminal;
      RecordAction(turn, action.kind);
      RecoveredBalanced(prior, turn, entries, recovered);
      out := CarryOutRecorded(prior, turn, action, entries, recovered);
    }

    /** Read what the action asks for, if that is not durable yet, or end as it says. */
    method CarryOutRecorded(prior: Usage, turn: nat, action: Action, ghost entries: seq<Entry>, ghost recovered: nat)
      returns (out: Option<Outcome>)
      requires Accounted(prior, entries, recovered) && !pessimistic
      requires turn == prior.providerCalls + |entries| + 1 == used.providerCalls
      requires |entries| < |journal.db.intents| == recovered && turn in journal.db.intents
      requires turn in journal.db.observations && journal.db.observations[turn].status.Completed?
      requires turn in journal.db.actions && journal.db.actions[turn] == action
      requires Balanced(prior, entries + [RecoveredEntry(TurnAt(journal.db, turn))], recovered)
      requires CurrentProgress(prior)
               == Advanced(cfg.price, Tally(cfg.price, Start(prior), entries), RecoveredEntry(TurnAt(journal.db, turn)))
      modifies this`used, this`observations, this`evidenceHashes, journal
      ensures JournalSound(prior) && Extends(old(journal.db), journal.db)
      ensures SameTurns(old(journal.db), journal.db)
      ensures Reports(prior, out, entries + [RecoveredEntry(old(TurnAt(journal.db, turn)))], recovered)
      ensures out.Some? && out.value.Finished? ==>
                && !action.kind.Read? && Explained(out.value.result)
                && out.value.result.terminal == RecoveredTerminal(old(TurnAt(journal.db, turn)))
                && out.value.result.reason == RecoveredReason(old(TurnAt(journal.db, turn)))
                && out.value.result.candidate == None
      ensures out.None? ==>
                && AtHead(prior, entries + [RecoveredEntry(old(TurnAt(journal.db, turn)))], recovered)
                && (Settled(prior, old(journal.db)) ==> journal.db == old(journal.db))
    {
      hide Sound, Extends, ReadsAnswered, Charges, HasTool, Tally, Settled, Settles, LastFits, LastUnknown, Advanced,
           FinalAccount, Results, Contents, RecoveredEntry;
      ghost var before := journal.db;
      ghost var account := entries + [RecoveredEntry(TurnAt(before, turn))];
      match action.kind {
        case Read(tool) =>
          out := ReplayRead(prior, turn, tool);
          if out.None? {
            HeadAfterRead(prior, turn, tool, entries, recovered, RecoveredEntry(TurnAt(before, turn)), before);
            if Settled(prior, before) {
              SettledRead(prior, before, turn, tool);
            }
          }
        case NeedsInformation =>
          out := Finish(prior, InformationNeeded, "recovered_model_needs_information", None, Some(action), account,
                        recovered);
        case NeedsOperator =>
          out := Finish(prior, OperatorNeeded, "recovered_model_needs_operator", None, Some(action), account,
                        recovered);
        case ResponseCandidate =>
          out := Finish(prior, MalformedModelOutput, "recovery_candidate_content_unavailable", None, Some(action),
                        account, recovered);
      }
    }

    /** A recovered read whose tool result was not yet durable is read again. */
    method ReplayRead(prior: Usage, turn: nat, tool: Tool) returns (out: Option<Outcome>)
      requires JournalSound(prior) && EvidenceLoaded(prior)
      requires turn in journal.db.actions && journal.db.actions[turn].kind == Read(tool)
      modifies this`used, this`observations, this`evidenceHashes, journal
      ensures JournalSound(prior) && Extends(old(journal.db), journal.db)
      ensures journal.db == old(journal.db).(toolRows := journal.db.toolRows)
      ensures old(journal.db).toolRows <= journal.db.toolRows
      ensures out.Some? ==> !out.value.Finished?
      ensures used == old(used).(tools := used.tools)
      ensures tool !in cfg.sources && !HasTool(old(journal.db.toolRows), tool) ==> out == Some(Raised(SourceMissing))
      ensures out.None? ==> EvidenceLoaded(prior) && HasTool(journal.db.toolRows, tool)
      ensures out.None? && HasTool(old(journal.db.toolRows), tool) ==> journal.db == old(journal.db)
    {
      hide Sound, HasTool, HasRead, WithToolRow;
      HasReadIsHasTool(journal.db.toolRows, tool);
      if HasRead(observations, tool) {
        return None;
      }
      if tool !in cfg.sources {
        return Some(Raised(SourceMissing));
      }
      out := ReadTool(prior, ToolResult(turn, tool, cfg.sources[tool].content));
    }

    /** Make a tool result durable and add it to the session's evidence. */
    method ReadTool(prior: Usage, result: ToolResult) returns (out: Option<Outcome>)
      requires JournalSound(prior) && EvidenceLoaded(prior)
      requires FromRead(cfg, journal.db.actions, result) && !HasTool(journal.db.toolRows, result.tool)
      modifies this`used, this`observations, this`evidenceHashes, journal
      ensures JournalSound(prior) && Extends(old(journal.db), journal.db)
      ensures journal.db == old(journal.db).(toolRows := journal.db.toolRows)
      ensures old(journal.db).toolRows <= journal.db.toolRows
      ensures Results(journal.db.toolRows) == old(observations) + [result]
      ensures out in {None, Some(Crashed)}
      ensures used == old(used).(tools := used.tools)
      ensures out.None? ==> EvidenceLoaded(prior) && HasTool(journal.db.toolRows, result.tool)
                            && observations == old(observations) + [result]
    {
      hide Sound, HasTool, WithToolRow, FromRead;
      SoundAfterToolResult(cfg, prior, journal.db, provider.calls, result);
      journal.AppendToolResult(used.tools + 1, result);
      if * {
        return Some(Crashed);
      }
      used := used.(tools := used.tools + 1);
      observations := observations + [result];
      evidenceHashes := evidenceHashes + [result.content];
      return None;
    }

    /** A read whose result is durable brings the session back to the head of its loop. */
    lemma HeadAfterRead(prior: Usage, turn: nat, tool: Tool, entries: seq<Entry>, recovered: nat, e: Entry,
                        before: Tables)
      requires JournalSound(prior) && EvidenceLoaded(prior) && !pessimistic
      requires Charges(entries, before, prior.providerCalls, provider.calls, recovered)
      requires ReadsAnswered(before.actions, before.toolRows, prior.providerCalls + |entries|)
      requires journal.db.intents == before.intents && journal.db.observations == before.observations
      requires journal.db.actions == before.actions && before.toolRows <= journal.db.toolRows
      requires turn in before.actions && before.actions[turn].kind == Read(tool)
      requires HasTool(journal.db.toolRows, tool)
      requires turn == prior.providerCalls + |entries| + 1 == used.providerCalls
      requires TurnCharged(e, TurnAt(before, turn), provider.calls, recovered, |entries|)
      requires LastFits(cfg, prior, before, entries + [e], recovered)
      requires |entries| < |before.intents| && recovered <= |before.intents|
      requires |entries| + 1 < |before.intents| ==> recovered == |before.intents|
      requires CurrentProgress(prior) == Advanced(cfg.price, Tally(cfg.price, Start(prior), entries), e)
      ensures AtHead(prior, entries + [e], recovered)
    {
      hide Sound, Charges, Tally, HasTool, ReadsAnswered, TurnCharged, Advanced, Results, Contents, FitsBudget;
      ChargesKept(entries, before, prior.providerCalls, provider.calls, recovered, journal.db, provider.calls);
      ChargesGrow(entries, journal.db, prior.providerCalls, provider.calls, recovered, e);
      ReadAnswered(before, journal.db, turn, tool);
      TallyStep(cfg.price, Start(prior), entries, e);
    }

    // ---- Turns that contact the provider ----------------------------------------------

    /** A turn has been put to the provider, and nothing about its reply is recorded yet
        or, once `observed`, its observation is. */
    ghost predicate InTurn(prior: Usage, entries: seq<Entry>, recovered: nat, turn: nat, reply: Reply,
                           observed: bool)
      reads this, journal, provider
    {
      && JournalSound(prior) && EvidenceLoaded(prior) && Accounted(prior, entries, recovered)
      && turn == prior.providerCalls + |entries| + 1 && recovered <= |entries|
      && |journal.db.intents| == |provider.calls| == |entries| + 1
      && provider.calls[|entries|] == Call(turn, reply)
      && turn in journal.db.intents
      && FitsBudget(cfg, SpendOf(Tally(cfg.price, Start(prior), entries).used),
                    journal.db.intents[turn].reservation)
      && (if observed
          then turn in journal.db.observations
               && journal.db.observations[turn] == Observe(journal.db.intents[turn], reply)
          else turn !in journal.db.observations)
    }

    /** The reservation for the next call, unless it no longer fits the budget. */
    method Reserve(promptCharacters: nat, elapsed: nat) returns (reserved: Option<Tokens>)
      ensures reserved
              == if Reservable(cfg, used, Ask(promptCharacters, elapsed))
                 then Some(ReservationFor(cfg, promptCharacters)) else None
    {
      hide Cost;
      var r := Tokens(EstimatedTokens(promptCharacters),
                      if cfg.limits.output < 600 then cfg.limits.output else 600);
      if || used.input + r.input > cfg.limits.input
         || used.output + r.output > cfg.limits.output
         || used.TotalTokens() + r.Total() > cfg.totalTokenLimit
         || used.cost + Cost(cfg.price, r.input, r.output) > cfg.limits.cost
         || elapsed >= cfg.limits.wallTime {
        return None;
      }
      return Some(r);
    }

    /** Reserve the call, record the intent, and only then contact the provider. */
    method Contact(prior: Usage, ghost entries: seq<Entry>, ghost recovered: nat)
      returns (out: Option<Outcome>, intent: Intent, reply: Reply)
      requires AtHead(prior, entries, recovered) && |entries| == |journal.db.intents|
      requires used.providerCalls < cfg.limits.providerCalls
      modifies this`used, this`asked, journal, provider
      ensures journal.db.toolRows == old(journal.db.toolRows)
      ensures JournalSound(prior) && Extends(old(journal.db), journal.db)
      ensures old(provider.calls) <= provider.calls && |provider.calls| <= |old(provider.calls)| + 1
      ensures provider.calls != old(provider.calls) ==>
                && Reservable(cfg, old(used), asked) && old(used).Within(cfg.limits)
                && Saved(old(journal.db.budgets), journal.db.budgets, old(used).providerCalls * 2 + 1,
                         Snapshot(old(used), false))
      ensures out.Some? ==> EndsProperly(out.value) && out != Some(Raised(RequiredListTooShort))
      ensures out.Some? && out.value.Finished? ==>
                && out.value.result.terminal.BudgetExhausted? && provider.calls == old(provider.calls)
                && out.value.result.reason == "provider_budget_exhausted" && out.value.result.candidate == None
                && !Reservable(cfg, old(used), asked)
                && journal.db.intents == old(journal.db.intents)
      ensures Reports(prior, out, entries, recovered)
      ensures out.None? ==>
                && InTurn(prior, entries, recovered, intent.turn, reply, false)
                && journal.db.intents[intent.turn] == intent && used == old(used)
                && provider.calls == old(provider.calls) + [Call(intent.turn, reply)]
    {
      hide Sound, Extends, ReadsAnswered, Charges, HasTool, Tally, Settled, Cost, Results, Contents, LastFits,
           FinalAccount, FitsBudget;
      ghost var before := journal.db;
      ExtendsSelf(before);
      intent, reply := Intent(0, Tokens(0, 0)), Failed;
      HeadIsSettled(cfg, prior, journal.db, provider.calls, entries, recovered);
      if * {
        return Some(Raised(PromptTooLarge)), intent, reply;
      }
      var promptCharacters: nat, elapsed: nat :| true;
      asked := Ask(promptCharacters, elapsed);
      var reserved := Reserve(promptCharacters, elapsed);
      if reserved.None? {
        HeadBalanced(prior, entries, recovered);
        out := Finish(prior, BudgetExhausted, "provider_budget_exhausted", None, None, entries, recovered);
        return;
      }
      var ok := SaveBudget(prior, used.providerCalls * 2 + 1);
      if !ok {
        return Some(Raised(BudgetRefused)), intent, reply;
      }
      if * {
        return Some(Crashed), intent, reply;
      }
      intent := Intent(used.providerCalls + 1, reserved.value);
      ChargesKept(entries, before, prior.providerCalls, provider.calls, recovered, journal.db, provider.calls);
      ghost var checked := journal.db;
      out, reply := RecordAndPropose(prior, intent, entries, recovered);
      ExtendsTransitive(before, checked, journal.db);
    }

    method RecordAndPropose(prior: Usage, intent: Intent, ghost entries: seq<Entry>, ghost recovered: nat)
      returns (out: Option<Outcome>, reply: Reply)
      requires JournalSound(prior) && EvidenceLoaded(prior) && Accounted(prior, entries, recovered)
      requires Settled(prior, journal.db)
      requires |entries| == |journal.db.intents| == |provider.calls|
      requires intent.turn == prior.providerCalls + |entries| + 1 <= cfg.limits.providerCalls
      requires intent.reservation.input >= 1
      requires FitsBudget(cfg, SpendOf(Tally(cfg.price, Start(prior), entries).used), intent.reservation)
      modifies journal, provider
      ensures journal.db.toolRows == old(journal.db.toolRows) && journal.db.budgets == old(journal.db.budgets)
      ensures JournalSound(prior) && Extends(old(journal.db), journal.db)
      ensures old(provider.calls) <= provider.calls && |provider.calls| <= |old(provider.calls)| + 1
      ensures out in {None, Some(Crashed), Some(Raised(EvidenceRefused))}
      ensures out.None? ==> InTurn(prior, entries, recovered, intent.turn, reply, false)
                            && journal.db.intents[intent.turn] == intent
                            && provider.calls == old(provider.calls) + [Call(intent.turn, reply)]
    {
      hide Sound, ReadsAnswered, Charges, HasTool, Settled, FitsBudget, Tally, JournalSpend, Results, Contents;
      ghost var before := journal.db;
      reply := Failed;
      TurnInBlock(cfg, prior, before, provider.calls, intent.turn);
      NothingBeyondIntents(cfg, prior, before, provider.calls, intent.turn);
      SessionSpendCovers(cfg, prior, before, provider.calls, entries, recovered, intent.reservation);
      SoundAfterIntent(cfg, prior, before, provider.calls, intent);
      var ok := journal.AppendIntent(intent);
      if !ok {
        return Some(Raised(EvidenceRefused)), reply;
      }
      if * {
        return Some(Crashed), reply;
      }
      SoundAfterCall(cfg, prior, journal.db, provider.calls, reply);
      reply := provider.Propose(intent.turn);
      SoundAfterCall(cfg, prior, journal.db, old(provider.calls), reply);
      if * {
        return Some(Crashed), reply;
      }
      ChargesKept(entries, before, prior.providerCalls, old(provider.calls), recovered, journal.db, provider.calls);
      return None, reply;
    }

    method ChargeReply(prior: Usage, intent: Intent, reply: Reply)
      requires !pessimistic
      modifies this`used, this`latency, this`usageAvailable, this`pessimistic
      ensures CurrentProgress(prior)
              == Charged(cfg.price, old(CurrentProgress(prior)), FreshCharge(intent.reservation, reply),
                         LatencyOf(reply), Reported(reply))
      ensures used.tools == old(used).tools
      ensures pessimistic <==> StatusOf(reply).OutcomeUnknown?
    {
      used := used.(providerCalls := used.providerCalls + 1);
      var charge := intent.reservation;
      match reply {
        case Returned(result) =>
          if result.usageAvailable {
            charge := result.usage;
          } else {
            usageAvailable := false;
          }
          if StatusOf(reply).OutcomeUnknown? {
            pessimistic := true;
          }
        case BoundaryError =>
          pessimistic, usageAvailable := false, false;
        case Failed =>
          pessimistic, usageAvailable := true, false;
      }
      ChargeTokens(charge);
      latency := latency + LatencyOf(reply);
    }

    /** Charge the turn, then make the observation durable. */
    method RecordReply(prior: Usage, intent: Intent, reply: Reply, ghost entries: seq<Entry>,
                       ghost recovered: nat)
      returns (out: Option<Outcome>)
      requires InTurn(prior, entries, recovered, intent.turn, reply, false)
      requires journal.db.intents[intent.turn] == intent
      requires !pessimistic && used.providerCalls == prior.providerCalls + |entries|
      requires CurrentProgress(prior) == Tally(cfg.price, Start(prior), entries)
      modifies this`used, this`latency, this`usageAvailable, this`pessimistic, journal
      ensures journal.db.toolRows == old(journal.db.toolRows)
      ensures JournalSound(prior) && Extends(old(journal.db), journal.db)
      ensures out in {None, Some(Crashed), Some(Raised(EvidenceRefused))}
      ensures out.None? ==>
                && InTurn(prior, entries, recovered, intent.turn, reply, true)
                && intent.turn !in journal.db.actions
                && used.tools == old(used).tools && used.noProgress == old(used).noProgress
                && used.providerCalls == intent.turn && journal.db.intents[intent.turn] == intent
                && (pessimistic <==> StatusOf(reply).OutcomeUnknown?)
                && journal.db.observations[intent.turn]
                   == (if reply.Returned?
                       then Observation(intent.turn, intent.reservation, StatusOf(reply), reply.result.usage,
                                        reply.result.latency, reply.result.classification)
                       else Observation(intent.turn, intent.reservation,
                                        if reply.Failed? then OutcomeUnknown else Malformed, Tokens(0, 0), 0,
                                        Some(if reply.Failed? then "provider_outcome_unknown"
                                             else "malformed_model_output")))
                && CurrentProgress(prior)
                   == Charged(cfg.price, Tally(cfg.price, Start(prior), entries),
                              FreshCharge(intent.reservation, reply), LatencyOf(reply), Reported(reply))
    {
      hide Sound, ReadsAnswered, Charges, HasTool, Tally, FitsBudget;
      ghost var before := journal.db;
      var turn := intent.turn;
      ChargeReply(prior, intent, reply);
      var observation := Observe(intent, reply);
      IntentNamesTurn(cfg, prior, before, provider.calls, turn);
      SoundAfterObservation(cfg, prior, before, provider.calls);
      var ok := journal.AppendObservation(observation);
      if !ok {
        return Some(Raised(EvidenceRefused));
      }
      if * {
        return Some(Crashed);
      }
      ChargesKept(entries, before, prior.providerCalls, provider.calls, recovered, journal.db, provider.calls);
      return None;
    }

    /** What a fresh turn may do to a session that goes on: count a retry, or read the next
        required tool. */
    twostate predicate TookStep()
      reads this
    {
      || (retryCount == old(retryCount) + 1 <= cfg.retryLimit && observations == old(observations))
      || (retryCount == old(retryCount)
          && |old(observations)| < |cfg.required| && |observations| == |old(observations)| + 1
          && observations[..|old(observations)|] == old(observations)
          && observations[|old(observations)|].tool == cfg.required[|old(observations)|]
          && !HasRead(old(observations), observations[|old(observations)|].tool))
    }

    /** How a fresh turn may end a session. */
    twostate predicate EndsProperly(out: Outcome)
      reads this, journal
    {
      && (out == Raised(RequiredListTooShort) ==>
            |old(observations)| >= |cfg.required| && exists tool :: !HasRead(old(observations), tool))
      && (out.Finished? && out.result.terminal.ResponseReady? ==>
            && |out.result.evidence| == 3
            && journal.db.toolRows == old(journal.db.toolRows) && evidenceHashes == old(evidenceHashes)
            && out.result.evidence == evidenceHashes)
      && (out.Finished? ==> Explained(out.result))
    }

    /** How a session ends is what the action it took asked for. */
    predicate Explained(r: Result) {
      && (r.terminal.InformationNeeded? ==> r.action.Some? && r.action.value.kind.NeedsInformation?)
      && (r.terminal.ResponseReady? ==> r.action.Some? && r.action.value.kind.ResponseCandidate?)
      && (r.terminal.OperatorNeeded? ==>
            r.action.Some? && (r.action.value.kind.NeedsOperator? || r.reason == "no_progress_limit_reached"))
      && (r.terminal.ToolTimeout? ==>
            && r.action.Some? && r.action.value.kind.Read? && r.action.value.kind.tool in cfg.sources
            && cfg.sources[r.action.value.kind.tool].timedOut)
      && (r.terminal.PolicyDenied? ==>
            r.action.Some? && (r.action.value.kind.Read? || r.action.value.kind.ResponseCandidate?))
      && (r.terminal.MalformedModelOutput? ==> r.action.None? || r.action.value.kind.ResponseCandidate?)
      && (r.terminal.ProviderOutcomeUnknown? ==> r.action.None?)
    }

    /** A turn for which there is an action left ends as the reply to its one call says, or before
        the call for its budget. */
    ghost predicate Judged(calls: seq<Call>, out: Option<Outcome>, used: Usage, retries: nat, before: Standing)
      reads this, provider
    {
      && used.actions < cfg.limits.actions
      &&
      if provider.calls == calls
      then && (out.Some? && out.value.Finished? ==>
                 && out.value.result.terminal.BudgetExhausted? && out.value.result.candidate == None
                 && out.value.result.reason == "provider_budget_exhausted" && !Reservable(cfg, used, asked))
           && out.Some?
      else && |provider.calls| == |calls| + 1 && Reservable(cfg, used, asked)
           && used.Within(cfg.limits)
           && var verdict := ReplyVerdict(cfg, retries, before, provider.calls[|provider.calls| - 1].reply);
              Follows(out, verdict)
    }

    method FreshTurn(prior: Usage, ghost entries: seq<Entry>, ghost recovered: nat)
      returns (out: Option<Outcome>, ghost entries': seq<Entry>)
      requires AtHead(prior, entries, recovered) && |entries| == |journal.db.intents|
      requires used.providerCalls < cfg.limits.providerCalls && used.actions < cfg.limits.actions
      modifies this, journal, provider
      ensures JournalSound(prior) && Extends(old(journal.db), journal.db)
      ensures old(provider.calls) <= provider.calls && |provider.calls| <= |old(provider.calls)| + 1
      ensures AtMostNextRequired(old(observations), Results(journal.db.toolRows), cfg.required)
      ensures out.Some? ==> EndsProperly(out.value)
      ensures Reports(prior, out, entries', recovered)
      ensures out.Some? && out.value.Finished? ==> |entries'| == |journal.db.intents|
      ensures Judged(old(provider.calls), out, old(used), old(retryCount), old(CurrentStanding()))
      ensures out.None? ==>
                && AtHead(prior, entries', recovered) && TookStep()
                && |entries'| == |entries| + 1 == |journal.db.intents|
    {
      hide Sound, Extends, ReadsAnswered, Charges, HasTool, Tally, Settled, HasRead, Results, Contents, Cost,
           LastFits, FinalAccount, FitsBudget, ReplyVerdict, Reservable, Charged, FreshCharge, Settles, LastUnknown,
           Observe, StatusOf, FollowsRequired, AtMostNextRequired, Saved, SavedIn, FreshEntry, Spent,
           Obeys, Balanced, Explained;
      var intent, reply;
      entries' := entries;
      ghost var before, standing := journal.db, CurrentStanding();
      NoNewResult(observations, cfg.required);
      out, intent, reply := Contact(prior, entries, recovered);
      if out.Some? {
        return;
      }
      ghost var contacted := journal.db;
      out := RecordReply(prior, intent, reply, entries, recovered);
      ExtendsTransitive(before, contacted, journal.db);
      if out.Some? {
        return;
      }
      ghost var observed := journal.db;
      SameVerdict(cfg, retryCount, standing, CurrentStanding(), reply);
      out, entries' := Weigh(prior, intent, reply, entries, recovered);
      ExtendsTransitive(before, observed, journal.db);
    }

    /** The session goes on, ends or is stuck as the verdict says. */
    predicate Follows(out: Option<Outcome>, verdict: Verdict) {
      && (out.None? ==> verdict.GoesOn?)
      && (out == Some(Raised(RequiredListTooShort)) ==> verdict.Undefined?)
      && (out.Some? && out.value.Finished? ==> Obeys(out.value.result, verdict))
    }

    /** Decide what the reply means: a retry, an action, or the end of the session. */
    method Weigh(prior: Usage, intent: Intent, reply: Reply, ghost entries: seq<Entry>, ghost recovered: nat)
      returns (out: Option<Outcome>, ghost entries': seq<Entry>)
      requires InTurn(prior, entries, recovered, intent.turn, reply, true)
      requires intent.turn !in journal.db.actions
      requires used.providerCalls == intent.turn && journal.db.intents[intent.turn] == intent
      requires pessimistic <==> StatusOf(reply).OutcomeUnknown?
      requires CurrentProgress(prior)
               == Charged(cfg.price, Tally(cfg.price, Start(prior), entries),
                          FreshCharge(intent.reservation, reply), LatencyOf(reply), Reported(reply))
      modifies this`used, this`previousAction, this`retryCount, this`observations, this`evidenceHashes,
               this`history, journal
      ensures JournalSound(prior) && Extends(old(journal.db), journal.db)
      ensures AtMostNextRequired(old(observations), Results(journal.db.toolRows), cfg.required)
      ensures MayRetry(cfg, old(retryCount), reply) <==> out.None? && retryCount == old(retryCount) + 1
      ensures Follows(out, ReplyVerdict(cfg, old(retryCount), old(CurrentStanding()), reply))
      ensures out.Some? ==> EndsProperly(out.value)
      ensures Reports(prior, out, entries', recovered) && |entries'| == |entries| + 1 == |journal.db.intents|
      ensures out.None? ==> AtHead(prior, entries', recovered) && TookStep()
    {
      hide Sound, Extends, ReadsAnswered, Charges, HasTool, Tally, Settled, HasRead, Results, Contents, Cost,
           LastFits, FinalAccount, FitsBudget, Settles, LastUnknown, ReplyVerdict, MayRetry, NoProgress,
           ProposalVerdict;
      VerdictCases(cfg, retryCount, CurrentStanding(), reply);
      var status := StatusOf(reply);
      ghost var e := FreshEntry(TurnAt(journal.db, intent.turn), reply);
      entries' := entries + [e];
      FreshBalanced(prior, intent.turn, entries, recovered, reply);
      if status.RetryableError? && reply.result.retryable && retryCount < cfg.retryLimit {
        retryCount := retryCount + 1;
        TallyStep(cfg.price, Start(prior), entries, e);
        ChargesGrow(entries, journal.db, prior.providerCalls, provider.calls, recovered, e);
        NoActionNoRead(journal.db, intent.turn);
        ExtendsSelf(journal.db);
        return None, entries';
      }
      if !status.Completed? {
        var terminal := if status.OutcomeUnknown? then ProviderOutcomeUnknown else MalformedModelOutput;
        var classification := ClassificationOf(reply);
        out := Finish(prior, terminal,
                      if classification.Some? then classification.value
                      else if status.RetryableError? then "retryable_error" else "malformed_model_output",
                      None, None, entries', recovered);
        return;
      }
      if reply.result.proposal.None? {
        out := Finish(prior, MalformedModelOutput, "model_proposal_missing", None, None, entries', recovered);
        return;
      }
      var proposal := reply.result.proposal.value;
      if !proposal.wellFormed {
        out := Finish(prior, MalformedModelOutput, "model_proposal_schema_invalid", None, None, entries', recovered);
        return;
      }
      out, entries' := TakeAction(prior, intent, reply, proposal, entries, recovered);
    }

    /** Make the action durable, then carry it out. */
    method TakeAction(prior: Usage, intent: Intent, reply: Reply, proposal: Proposal,
                      ghost entries: seq<Entry>, ghost recovered: nat)
      returns (out: Option<Outcome>, ghost entries': seq<Entry>)
      requires InTurn(prior, entries, recovered, intent.turn, reply, true)
      requires StatusOf(reply).Completed? && !pessimistic && intent.turn !in journal.db.actions
      requires used.providerCalls == intent.turn && journal.db.intents[intent.turn] == intent
      requires CurrentProgress(prior)
               == Charged(cfg.price, Tally(cfg.price, Start(prior), entries),
                          FreshCharge(intent.reservation, reply), LatencyOf(reply), Reported(reply))
      modifies this`used, this`previousAction, this`observations, this`evidenceHashes, this`history, journal
      ensures JournalSound(prior) && Extends(old(journal.db), journal.db)
      ensures intent.turn in journal.db.actions
              && journal.db.actions[intent.turn] == Action(intent.turn, proposal.kind, proposal.digest)
      ensures AtMostNextRequired(old(observations), Results(journal.db.toolRows), cfg.required)
      ensures if NoProgress(cfg, old(CurrentStanding()), proposal.kind)
              then && out.Some? && journal.db.toolRows == old(journal.db.toolRows)
                   && Follows(out, EndsWith(OperatorNeeded, "no_progress_limit_reached", None))
              else Follows(out, ProposalVerdict(cfg, old(CurrentStanding()), proposal))
      ensures retryCount == old(retryCount)
      ensures out.Some? ==> EndsProperly(out.value)
      ensures Reports(prior, out, entries', recovered) && |entries'| == |entries| + 1 == |journal.db.intents|
      ensures out.None? ==> AtHead(prior, entries', recovered) && TookStep()
    {
      hide Sound, Extends, ReadsAnswered, Charges, HasTool, Tally, Settled, HasRead, Results, Contents, Cost,
           LastFits, FinalAccount, FitsBudget, Settles, LastUnknown, Charged;
      ghost var before := journal.db;
      var turn, kind := intent.turn, proposal.kind;
      var action := Action(turn, kind, proposal.digest);
      SoundAfterAction(cfg, prior, before, provider.calls, action);
      journal.AppendAction(action);
      ghost var acted := journal.db;
      NewAction(before, acted, action);
      ChargesKept(entries, before, prior.providerCalls, provider.calls, recovered, acted, provider.calls);
      entries' := entries + [FreshEntry(TurnAt(acted, turn), reply)];
      if * {
        return Some(Crashed), entries';
      }
      if previousAction == Some(kind) && used.noProgress + 1 >= cfg.limits.noProgress {
        out := StopForNoProgress(prior, turn, reply, action, entries, recovered);
        ExtendsTransitive(before, acted, journal.db);
        return;
      }
      RecordAction(turn, kind);
      out := CarryOut(prior, turn, reply, proposal, action, entries, recovered);
      ExtendsTransitive(before, acted, journal.db);
    }

    /** The action is counted as a repeat, but not taken into the history. */
    method StopForNoProgress(prior: Usage, turn: nat, reply: Reply, action: Action, ghost entries: seq<Entry>,
                             ghost recovered: nat)
      returns (out: Option<Outcome>)
      requires InTurn(prior, entries, recovered, turn, reply, true)
      requires StatusOf(reply).Completed? && !pessimistic && previousAction == Some(action.kind)
      requires turn in journal.db.actions && journal.db.actions[turn] == action
      requires var e := FreshEntry(TurnAt(journal.db, turn), reply);
               CurrentProgress(prior)
               == Charged(cfg.price, Tally(cfg.price, Start(prior), entries), e.charge, e.latency, e.reported)
      modifies this`used, journal
      ensures JournalSound(prior) && Extends(old(journal.db), journal.db)
      ensures journal.db == old(journal.db).(budgets := journal.db.budgets)
      ensures out.Some? && EndsProperly(out.value)
      ensures Follows(out, EndsWith(OperatorNeeded, "no_progress_limit_reached", None))
      ensures Reports(prior, out, entries + [FreshEntry(old(TurnAt(journal.db, turn)), reply)], recovered)
    {
      hide Sound, Extends, ReadsAnswered, Charges, Tally, Settled, HasRead, Results, Contents, Cost, LastFits,
           FinalAccount, FitsBudget, Settles, LastUnknown, Charged;
      used := used.(actions := used.actions + 1, noProgress := used.noProgress + 1);
      FreshBalanced(prior, turn, entries, recovered, reply);
      out := Finish(prior, OperatorNeeded, "no_progress_limit_reached", None, Some(action),
                    entries + [FreshEntry(TurnAt(journal.db, turn), reply)], recovered);
    }

    method CarryOut(prior: Usage, turn: nat, reply: Reply, proposal: Proposal, action: Action,
                    ghost entries: seq<Entry>, ghost recovered: nat)
      returns (out: Option<Outcome>)
      requires InTurn(prior, entries, recovered, turn, reply, true)
      requires StatusOf(reply).Completed? && !pessimistic && used.providerCalls == turn
      requires turn in journal.db.actions && journal.db.actions[turn] == action && action.kind == proposal.kind
      requires CurrentProgress(prior)
               == Advanced(cfg.price, Tally(cfg.price, Start(prior), entries),
                           FreshEntry(TurnAt(journal.db, turn), reply))
      modifies this`used, this`observations, this`evidenceHashes, journal
      ensures JournalSound(prior) && Extends(old(journal.db), journal.db)
      ensures SameTurns(old(journal.db), journal.db) && |entries| + 1 == |journal.db.intents|
      ensures Follows(out, ProposalVerdict(cfg, old(CurrentStanding()), proposal))
      ensures AtMostNextRequired(old(observations), Results(journal.db.toolRows), cfg.required)
      ensures out.Some? ==> EndsProperly(out.value)
      ensures Reports(prior, out, entries + [FreshEntry(old(TurnAt(journal.db, turn)), reply)], recovered)
      ensures out.None? ==>
                && AtHead(prior, entries + [FreshEntry(old(TurnAt(journal.db, turn)), reply)], recovered)
                && TookStep()
    {
      hide Sound, Extends, ReadsAnswered, Charges, HasTool, Tally, Settled, HasRead, Results, Contents, Cost,
           Advanced, LastFits, FinalAccount, FitsBudget, Settles, LastUnknown, FreshEntry;
      ghost var acted := journal.db;
      ghost var e := FreshEntry(TurnAt(acted, turn), reply);
      FreshBalanced(prior, turn, entries, recovered, reply);
      match proposal.kind {
        case Read(tool) =>
          out := ReadRequired(prior, turn, tool, action, entries + [e], recovered);
          if out.None? {
            HeadAfterRead(prior, turn, tool, entries, recovered, e, acted);
          }
        case NeedsInformation =>
          out := Finish(prior, InformationNeeded,
                        if proposal.reason in {None, Some("")} then "model_needs_information"
                        else proposal.reason.value, None, Some(action), entries + [e], recovered);
        case NeedsOperator =>
          out := Finish(prior, OperatorNeeded,
                        if proposal.reason in {None, Some("")} then "model_needs_operator"
                        else proposal.reason.value, None, Some(action), entries + [e], recovered);
        case ResponseCandidate =>
          out := Answer(prior, turn, proposal, action, entries + [e], recovered);
      }
    }

    /** A read is carried out only if it names the next required tool. */
    method ReadRequired(prior: Usage, turn: nat, tool: Tool, action: Action, ghost account: seq<Entry>,
                        ghost recovered: nat)
      returns (out: Option<Outcome>)
      requires Balanced(prior, account, recovered) && !pessimistic
      requires turn in journal.db.actions && journal.db.actions[turn] == action && action.kind == Read(tool)
      requires turn == prior.providerCalls + |account| && account != []
      modifies this`used, this`observations, this`evidenceHashes, journal
      ensures JournalSound(prior) && Extends(old(journal.db), journal.db)
      ensures SameTurns(old(journal.db), journal.db) && old(journal.db).toolRows <= journal.db.toolRows
      ensures AtMostNextRequired(old(observations), Results(journal.db.toolRows), cfg.required)
      ensures out.Some? ==> EndsProperly(out.value)
      ensures Reports(prior, out, account, recovered)
      ensures Follows(out, ReadVerdict(cfg, old(observations), old(used).tools, tool))
      ensures ReadVerdict(cfg, old(observations), old(used).tools, tool).Undefined? ==>
                out == Some(Raised(RequiredListTooShort))
      ensures out.None? ==> EvidenceLoaded(prior) && HasTool(journal.db.toolRows, tool) && TookStep()
                            && used == old(used).(tools := used.tools)
    {
      hide Sound, Extends, HasTool, WithToolRow, HasRead, Results, Contents, Settles, LastFits, LastUnknown, Tally,
           FinalAccount;
      ghost var before := journal.db;
      if used.tools >= cfg.limits.tools || HasRead(observations, tool) {
        out := Finish(prior, PolicyDenied, "tool_order_or_scope_denied", None, Some(action), account, recovered);
        return;
      }
      if |observations| >= |cfg.required| {
        ExtendsSelf(before);
        return Some(Raised(RequiredListTooShort));
      }
      if tool != cfg.required[|observations|] {
        out := Finish(prior, PolicyDenied, "tool_order_or_scope_denied", None, Some(action), account, recovered);
        return;
      }
      out := ReadSource(prior, turn, tool, action, account, recovered);
    }

    /** Read the next required tool, behind a snapshot of the counters. */
    method ReadSource(prior: Usage, turn: nat, tool: Tool, action: Action, ghost account: seq<Entry>,
                      ghost recovered: nat)
      returns (out: Option<Outcome>)
      requires Balanced(prior, account, recovered) && !pessimistic
      requires turn in journal.db.actions && journal.db.actions[turn] == action && action.kind == Read(tool)
      requires turn == prior.providerCalls + |account| && account != []
      requires !HasRead(observations, tool) && used.tools < cfg.limits.tools
      requires |observations| < |cfg.required| && tool == cfg.required[|observations|]
      modifies this`used, this`observations, this`evidenceHashes, journal
      ensures JournalSound(prior) && Extends(old(journal.db), journal.db)
      ensures SameTurns(old(journal.db), journal.db) && old(journal.db).toolRows <= journal.db.toolRows
      ensures AtMostNextRequired(old(observations), Results(journal.db.toolRows), cfg.required)
      ensures out.Some? ==> EndsProperly(out.value)
      ensures Reports(prior, out, account, recovered)
      ensures Follows(out, ReadVerdict(cfg, old(observations), old(used).tools, tool))
      ensures journal.db.toolRows != old(journal.db.toolRows) ==>
                SavedIn(old(journal.db.budgets), journal.db.budgets, old(used).providerCalls * 2,
                        Snapshot(old(used), false))
      ensures !old(used).Within(cfg.limits) ==> out == Some(Raised(BudgetRefused))
      ensures out.None? ==> EvidenceLoaded(prior) && HasTool(journal.db.toolRows, tool) && TookStep()
                            && used == old(used).(tools := used.tools)
    {
      hide Sound, Extends, HasTool, WithToolRow, HasRead, Results, Contents, Settles, LastFits, LastUnknown, Tally,
           FinalAccount, Settled, Saved, SavedIn, ReadVerdict, Obeys;
      ReadInOrder(cfg, observations, used.tools, tool);
      ghost var before, number, snapshot := journal.db, used.providerCalls * 2, Snapshot(used, false);
      var ok := SaveBudget(prior, used.providerCalls * 2);
      if !ok {
        return Some(Raised(BudgetRefused));
      }
      AccountKept(cfg, prior, before, journal.db, provider.calls, account, recovered);
      if * {
        return Some(Crashed);
      }
      if tool !in cfg.sources {
        ghost var saved := journal.db;
        out := Finish(prior, PolicyDenied, "tool_source_validation_denied", None, Some(action), account, recovered);
        ExtendsTransitive(before, saved, journal.db);
        return;
      }
      HasReadIsHasTool(journal.db.toolRows, tool);
      ghost var reserved := journal.db;
      out := ReadTool(prior, ToolResult(turn, tool, cfg.sources[tool].content));
      ghost var done := journal.db;
      ExtendsTransitive(before, reserved, done);
      SavedStays(before.budgets, reserved, done, number, snapshot);
      AccountKept(cfg, prior, before, done, provider.calls, account, recovered);
      if out.None? && cfg.sources[tool].timedOut {
        out := Finish(prior, ToolTimeout, "declared_tool_timeout", None, Some(action), account, recovered);
        ExtendsTransitive(before, done, journal.db);
        ExtendsTransitive(reserved, done, journal.db);
        SavedStays(before.budgets, reserved, journal.db, number, snapshot);
      }
    }

    /** A candidate is accepted only with exactly the evidence gathered, in order. */
    method Answer(prior: Usage, turn: nat, proposal: Proposal, action: Action, ghost account: seq<Entry>,
                  ghost recovered: nat)
      returns (out: Option<Outcome>)
      requires Balanced(prior, account, recovered) && !pessimistic
      requires turn in journal.db.actions && journal.db.actions[turn] == action
      requires turn == prior.providerCalls + |account| && account != []
      requires action.kind.ResponseCandidate?
      modifies this`used, journal
      ensures journal.db == old(journal.db).(budgets := journal.db.budgets)
      ensures JournalSound(prior) && Extends(old(journal.db), journal.db)
      ensures out.Some? && EndsProperly(out.value)
      ensures Reports(prior, out, account, recovered)
      ensures Follows(out, DraftVerdict(observations, proposal))
    {
      hide Sound, Extends, Settles, LastFits, LastUnknown, Tally, FinalAccount, Results, Contents;
      SameLength(journal.db.toolRows);
      if proposal.references != observations || |evidenceHashes| != 3 || proposal.draft.None? {
        out := Finish(prior, PolicyDenied, "candidate_evidence_binding_denied", None, Some(action), account,
                      recovered);
        return;
      }
      if proposal.draft.value.None? {
        out := Finish(prior, MalformedModelOutput, "model_candidate_shape_invalid", None, Some(action), account,
                      recovered);
        return;
      }
      out := Finish(prior, ResponseReady, "deterministic_candidate_verified", proposal.draft.value, Some(action),
                    account, recovered);
    }

    // ---- The session ------------------------------------------------------------------

    /** Since an empty journal, every turn has been a retry or the read of a required tool. */
    ghost predicate Unbroken(entries: seq<Entry>)
      reads this
    {
      && FollowsRequired(observations, cfg.required)
      && |entries| == retryCount + |observations| && retryCount <= cfg.retryLimit
    }

    /** The session ends because its actions or calls have run out. */
    predicate Exhausting(out: Option<Outcome>) {
      out.Some? && out.value.Finished? && Exhausted(cfg, out.value.result) && out.value.result.candidate == None
    }

    /** One turn of the loop, from the journal while it holds one. */
    method TakeTurn(prior: Usage, ghost entries: seq<Entry>, ghost recovered: nat)
      returns (out: Option<Outcome>, ghost entries': seq<Entry>)
      requires AtHead(prior, entries, recovered)
      requires used.providerCalls < cfg.limits.providerCalls
      modifies this, journal, provider
      ensures JournalSound(prior) && Extends(old(journal.db), journal.db)
      ensures old(provider.calls) <= provider.calls
      ensures |entries| < |old(journal.db.intents)| ==>
                Replayed(prior, old(journal.db), old(provider.calls), journal.db, out, |entries'|)
      ensures out.Some? && out.value.Finished? ==> Explained(out.value.result)
      ensures out.Some? ==> out.value.Finished? && out.value.result.terminal.ResponseReady? ==>
                |out.value.result.evidence| == 3 && out.value.result.evidence == Contents(journal.db.toolRows)
      ensures Reports(prior, out, entries', recovered)
      ensures out.None? ==> AtHead(prior, entries', recovered) && |entries'| == |entries| + 1
                            && old(used).actions < cfg.limits.actions
      ensures |entries| == |old(journal.db.intents)| ==>
                if old(used).actions >= cfg.limits.actions
                then provider.calls == old(provider.calls) && out.Some? && (out.value.Finished? ==> Exhausting(out))
                else Judged(old(provider.calls), out, old(used), old(retryCount), old(CurrentStanding()))
      ensures |provider.calls| <= |old(provider.calls)| + 1
      ensures |entries| == |old(journal.db.intents)| && (out.None? || out.value.Finished?) ==>
                |entries'| == |journal.db.intents|
      ensures recovered == 0 && old(Unbroken(entries)) ==>
                && (out.None? ==> Unbroken(entries'))
                && |provider.calls| <= |entries| + 1
                && FollowsRequired(Results(journal.db.toolRows), cfg.required)
                && (NamesEachTool(cfg.required) ==> out != Some(Raised(RequiredListTooShort)))
    {
      hide Sound, Extends, ReadsAnswered, Charges, HasTool, Tally, Settled, HasRead, Results, Contents, Cost,
           LastFits, FinalAccount, ReplyVerdict, Reservable, RecoveredTerminal, RecoveredReason, Continues, TurnsFrom,
           TurnAt, RecoveredEntry;
      entries' := entries;
      ghost var before := journal.db;
      var turn := used.providerCalls + 1;
      TurnInBlock(cfg, prior, before, provider.calls, turn);
      OneCallAnIntent(cfg, prior, before, provider.calls);
      if used.actions >= cfg.limits.actions {
        HeadBalanced(prior, entries, recovered);
        out := Finish(prior, BudgetExhausted, "action_budget_exhausted", None, None, entries, recovered);
      } else if turn in journal.db.intents {
        ChargedContinue(entries, before, prior.providerCalls, provider.calls, recovered);
        out, entries' := ReplayTurn(prior, turn, entries, recovered);
      } else {
        if recovered == 0 && Unbroken(entries) && NamesEachTool(cfg.required)
           && |observations| >= |cfg.required| {
          AllToolsReadForall(observations, cfg.required);
        }
        out, entries' := FreshTurn(prior, entries, recovered);
      }
    }

    /** What the first and the last head of the loop without a recorded turn left say about a
        session that began with `start`. */
    ghost predicate Kept(prior: Usage, start: Tables, calls: seq<Call>, recovered: nat, resumed: Option<Head>,
                         head: Option<Head>)
      reads this, journal, provider
    {
      && (resumed.Some? <==> head.Some?)
      && (resumed.None? ==> provider.calls == calls)
      && (resumed.Some? ==>
            Resumes(cfg, prior, start, calls, resumed.value) && Extends(resumed.value.db, head.value.db))
      && (head.Some? ==>
            && HeadOf(cfg, prior, head.value) && head.value.recovered == recovered
            && Extends(head.value.db, journal.db) && head.value.calls <= provider.calls
            && (provider.calls != head.value.calls ==> Affordable(head.value)))
    }

    /** The one call behind a head of the loop was made with a call and an action left, time and
        room in the budget. */
    ghost predicate Affordable(head: Head)
      reads this, provider
    {
      var before := head.standing.progress.used;
      && |provider.calls| == |head.calls| + 1 && Reservable(cfg, before, asked)
      && before.providerCalls < cfg.limits.providerCalls && before.actions < cfg.limits.actions
      && before.Within(cfg.limits)
    }

    /** And what it has come to between two turns. */
    ghost predicate Underway(prior: Usage, start: Tables, calls: seq<Call>, entries: seq<Entry>, recovered: nat,
                             resumed: Option<Head>, head: Option<Head>)
      reads this, journal, provider
    {
      && recovered == |start.intents| && Kept(prior, start, calls, recovered, resumed, head)
      && (resumed.Some? ==> |entries| == |journal.db.intents|)
      && (resumed.None? ==>
            && SameTurns(start, journal.db)
            && (Settled(prior, start) ==> Settled(prior, journal.db) && journal.db.toolRows == start.toolRows))
    }

    /** Behind the last head of the loop a session ends for want of actions or calls, or because
        the next call could not be reserved, or else as its one further call was replied to. */
    ghost predicate EndsAsJudged(r: Result, head: Head)
      reads this, provider
    {
      if provider.calls == head.calls
      then && r.candidate == None
           && (Exhausted(cfg, r)
               || (r.terminal.BudgetExhausted? && r.reason == "provider_budget_exhausted"
                   && head.standing.progress.used.actions < cfg.limits.actions
                   && !Reservable(cfg, head.standing.progress.used, asked)))
      else && Affordable(head)
           && Obeys(r, ReplyVerdict(cfg, head.retries, head.standing, provider.calls[|head.calls|].reply))
    }

    /** A session ends with an account of its result that stays within the budget while usage
        is reported honestly, as the action it took asked for, and behind all evidence. */
    ghost predicate EndsWell(prior: Usage, start: Tables, out: Outcome, account: seq<Entry>, recovered: nat,
                             head: Option<Head>)
      reads this, journal, provider
    {
      out.Finished? ==>
        && FinalAccount(cfg, prior, journal.db, provider.calls, account, recovered, out.result)
        && (Honest(journal.db.intents, provider.calls, prior.providerCalls) ==>
              SpendKeptWithin(cfg, prior, out.result.used))
        && Explained(out.result)
        && (out.result.terminal.ResponseReady? ==>
              |out.result.evidence| == 3 && out.result.evidence == Contents(journal.db.toolRows))
        && (head.None? ==>
              SameTurns(start, journal.db) && EndsAtRecorded(cfg, prior, start, |account|, out.result))
        && (head.Some? ==> |account| == |journal.db.intents| && EndsAsJudged(out.result, head.value))
    }

    /** Keep the head of the loop, if no recorded turn is left. */
    lemma TakeHead(prior: Usage, start: Tables, calls: seq<Call>, entries: seq<Entry>, recovered: nat,
                   resumed: Option<Head>, head: Option<Head>)
      returns (resumed': Option<Head>, head': Option<Head>)
      requires AtHead(prior, entries, recovered)
      requires Underway(prior, start, calls, entries, recovered, resumed, head)
      ensures Underway(prior, start, calls, entries, recovered, resumed', head')
      ensures if |entries| == |journal.db.intents|
              then head' == Some(Head(CurrentStanding(), retryCount, entries, recovered, journal.db, provider.calls))
              else head' == head
      ensures resumed'.None? ==> |entries| < |journal.db.intents|
    {
      hide Sound, Extends, ReadsAnswered, Charges, Tally, Settled, Results, Contents, LastFits, HeadOf, Reproduced;
      resumed', head' := resumed, head;
      if |entries| == |journal.db.intents| {
        var h := Head(CurrentStanding(), retryCount, entries, recovered, journal.db, provider.calls);
        HeadTaken(prior, entries, recovered);
        ExtendsSelf(journal.db);
        head' := Some(h);
        if resumed.None? {
          ReplayedEntries(cfg, prior, h);
          resumed' := Some(h);
        } else {
          ExtendsTransitive(resumed.value.db, head.value.db, journal.db);
        }
      }
    }

    lemma ResultWithin(prior: Usage, out: Outcome, account: seq<Entry>, recovered: nat)
      requires JournalSound(prior) && Reports(prior, Some(out), account, recovered)
      ensures out.Finished? && Honest(journal.db.intents, provider.calls, prior.providerCalls) ==>
                SpendKeptWithin(cfg, prior, out.result.used)
    {
      hide Sound, Settles, LastFits, LastUnknown, Tally, Contents, Honest;
      if out.Finished? && Honest(journal.db.intents, provider.calls, prior.providerCalls) {
        WithinWhileHonest(cfg, prior, journal.db, provider.calls, account, recovered);
      }
    }

    /** A recorded turn is passed without contacting the provider, or ends the session as
        what is recorded of it says, unless the budget of actions has run out. */
    ghost predicate Replayed(prior: Usage, before: Tables, calls: seq<Call>, after: Tables, out: Option<Outcome>,
                             n: nat)
      reads provider
    {
      && provider.calls == calls && SameTurns(before, after)
      && (out.None? && Settled(prior, before) ==> after == before)
      && (out.Some? && out.value.Finished? ==> EndsAtRecorded(cfg, prior, before, n, out.value.result))
    }

    /** One turn, keeping the heads of the loop. */
    method Step(prior: Usage, ghost start: Tables, ghost calls: seq<Call>, ghost entries: seq<Entry>,
                ghost recovered: nat, ghost resumed: Option<Head>, ghost head: Option<Head>)
      returns (out: Option<Outcome>, ghost entries': seq<Entry>, ghost resumed': Option<Head>,
               ghost head': Option<Head>)
      requires AtHead(prior, entries, recovered)
      requires Underway(prior, start, calls, entries, recovered, resumed, head)
      requires used.providerCalls < cfg.limits.providerCalls
      modifies this, journal, provider
      ensures JournalSound(prior) && Extends(old(journal.db), journal.db)
      ensures old(provider.calls) <= provider.calls
      ensures Kept(prior, start, calls, recovered, resumed', head')
      ensures out.Some? ==> EndsWell(prior, start, out.value, entries', recovered, head')
      ensures out.None? ==>
                && AtHead(prior, entries', recovered)
                && Underway(prior, start, calls, entries', recovered, resumed', head')
                && |entries'| == |entries| + 1
      ensures recovered == 0 && old(Unbroken(entries)) ==>
                && (out.None? ==> Unbroken(entries'))
                && |provider.calls| <= |entries| + 1
                && FollowsRequired(Results(journal.db.toolRows), cfg.required)
                && (NamesEachTool(cfg.required) ==> out != Some(Raised(RequiredListTooShort)))
    {
      hide Sound, Extends, ReadsAnswered, Charges, Tally, Settled, HasRead, Results, Contents, LastFits, FinalAccount,
           HeadOf, Resumes, Honest, EndsAtRecorded, Unbroken, FollowsRequired;
      resumed', head' := TakeHead(prior, start, calls, entries, recovered, resumed, head);
      ghost var before := journal.db;
      out, entries' := TakeTurn(prior, entries, recovered);
      if head'.Some? {
        ExtendsTransitive(head'.value.db, before, journal.db);
      }
      if out.Some? {
        ResultWithin(prior, out.value, entries', recovered);
        if resumed'.None? && out.value.Finished? {
          EndsAtSame(cfg, prior, start, before, |entries'|, out.value.result);
        }
      }
    }

    lemma Begun(prior: Usage, start: Tables, calls: seq<Call>, recovered: nat)
      requires recovered == |start.intents| && provider.calls == calls
      requires journal.db == start.(budgets := journal.db.budgets)
      requires Settled(prior, start) ==> Settled(prior, journal.db)
      ensures Kept(prior, start, calls, recovered, None, None)
      ensures Underway(prior, start, calls, [], recovered, None, None)
    {
      hide Settled;
    }

    lemma NoResultYet(prior: Usage, start: Tables, out: Outcome, recovered: nat)
      requires !out.Finished?
      ensures EndsWell(prior, start, out, [], recovered, None)
    {
    }

    /** The provider calls have run out. */
    method EndOfCalls(prior: Usage, ghost start: Tables, ghost calls: seq<Call>, ghost entries: seq<Entry>,
                      ghost recovered: nat, ghost resumed: Option<Head>, ghost head: Option<Head>)
      returns (out: Outcome, ghost resumed': Option<Head>, ghost head': Option<Head>)
      requires AtHead(prior, entries, recovered)
      requires Underway(prior, start, calls, entries, recovered, resumed, head)
      requires used.providerCalls >= cfg.limits.providerCalls
      modifies this`used, journal
      ensures JournalSound(prior) && Extends(old(journal.db), journal.db)
      ensures journal.db.toolRows == old(journal.db.toolRows) && out != Raised(RequiredListTooShort)
      ensures Kept(prior, start, calls, recovered, resumed', head')
      ensures EndsWell(prior, start, out, entries, recovered, head')
    {
      hide Sound, Extends, ReadsAnswered, Charges, Tally, Settled, Results, Contents, LastFits, FinalAccount,
           HeadOf, Resumes, Honest, EndsAtRecorded;
      resumed', head' := TakeHead(prior, start, calls, entries, recovered, resumed, head);
      ghost var last := journal.db;
      HeadBalanced(prior, entries, recovered);
      var stop := Finish(prior, BudgetExhausted, "provider_call_budget_exhausted", None, None, entries, recovered);
      out := stop.value;
      if head'.Some? {
        ExtendsTransitive(head'.value.db, last, journal.db);
      }
      if out.Finished? {
        EndsExhausted(cfg, prior, start, |entries|, out.result);
      }
      ResultWithin(prior, out, entries, recovered);
    }

    /** One session of the request: replay what the journal holds, then go on.  `resumed` is
        the first head of the loop at which no recorded turn was left, and `head` the last. */
    method Run(prior: Usage)
      returns (out: Outcome, ghost resumed: Option<Head>, ghost head: Option<Head>, ghost account: seq<Entry>)
      requires JournalSound(prior)
      modifies this, journal, provider
      ensures JournalSound(prior)
      ensures Extends(old(journal.db), journal.db) && old(provider.calls) <= provider.calls
      ensures Kept(prior, old(journal.db), old(provider.calls), |old(journal.db.intents)|, resumed, head)
      ensures EndsWell(prior, old(journal.db), out, account, |old(journal.db.intents)|, head)
      ensures old(journal.db.intents) == map[] && old(journal.db.toolRows) == [] ==>
                && FollowsRequired(Results(journal.db.toolRows), cfg.required)
                && |provider.calls| <= |cfg.required| + cfg.retryLimit + 1
                && (NamesEachTool(cfg.required) ==> out != Raised(RequiredListTooShort))
    {
      hide Sound, Extends, ReadsAnswered, Charges, HasTool, Tally, Settled, HasRead, Results, Contents, Cost,
           LastFits, Kept, EndsWell, Underway;
      ghost var start, recovered := journal.db, |journal.db.intents|;
      ghost var empty := journal.db.intents == map[] && journal.db.toolRows == [];
      account, resumed, head := [], None, None;
      OneCallAnIntent(cfg, prior, start, provider.calls);
      assert empty ==> Results(journal.db.toolRows) == [] by { NoResults(); }
      var stop := Restart(prior);
      Begun(prior, start, provider.calls, recovered);
      if stop.Some? {
        NoResultYet(prior, start, stop.value, recovered);
        return stop.value, resumed, head, account;
      }
      while used.providerCalls < cfg.limits.providerCalls
        invariant AtHead(prior, account, recovered)
        invariant Extends(start, journal.db) && old(provider.calls) <= provider.calls
        invariant Underway(prior, start, old(provider.calls), account, recovered, resumed, head)
        invariant empty ==> recovered == 0 && Unbroken(account)
        decreases cfg.limits.providerCalls - used.providerCalls
      {
        ghost var before := journal.db;
        stop, account, resumed, head :=
          Step(prior, start, old(provider.calls), account, recovered, resumed, head);
        ExtendsTransitive(start, before, journal.db);
        if stop.Some? {
          return stop.value, resumed, head, account;
        }
      }
      ghost var last := journal.db;
      OneCallAnIntent(cfg, prior, last, provider.calls);
      out, resumed, head := EndOfCalls(prior, start, old(provider.calls), account, recovered, resumed, head);
      ExtendsTransitive(start, last, journal.db);
    }
  }
}
