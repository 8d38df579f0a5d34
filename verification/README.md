# WeFlow protocol verification

A Dafny model of the bounded model-invocation protocol of the WeFlow agent runtime, and of
the validators and the builder of the evidence it leaves behind. `dafny verify dfyconfig.toml`
checks the whole project.

## The system

A support case is answered with the help of an untrusted language model. Each call of the
model costs tokens, money and time, so every call is reserved at its worst before it is made,
its intent is written to a durable journal, and only then is the provider contacted; what came
of it is observed, settled and acted upon, each step durable before the next. The process may
stop between any two steps.

Two runtimes follow this discipline.

* The **QQ assist runtime** (`QQModelJournal`, `QQModelTurns`, `QQModelAccounts`,
  `QQModelVerdicts`, `QQModelRuntime`, `QQModelSessions`) restarts a request from its journal: it replays the
  recorded turns without contacting the provider and then goes on. `Runtime` is an object with
  volatile fields beside a `Journal` and a `Provider` that outlive it; `if *` in its methods
  marks where the process may stop. The invariant `Sound` of journal and provider holds at every
  such place, so the theorems of `QQModelSessions` cover any number of interrupted sessions.
  `QQModelAccounts` says what a session charged for each turn, what that adds up to at the head
  of its loop and in its result, and when it stays within the budget; `QQModelVerdicts` what each
  reply comes to, which `Run` proves of the session's end.
* The **live evaluation runtime** keeps its evidence in a relational store. `LiveTables` gives
  the tables, their keys and the operations on them, `LiveStore` the store as an object with its
  recovery, `LiveBudget` the ledger folded from the events of an attempt, `LiveEvidence` what the
  store says about the calls of an attempt at any instant, `LiveRuntime` the loop, and
  `LiveSessions` a run from its start to its recovery.

What the runtimes leave is projected into an operator case snapshot, addressed by its content.
`CanonicalJson` models the text that every content hash is taken of, `OperatorCase` the three
validators of the snapshot (two contracts and the web console), `OperatorCaseBuilder` the
program that builds it. `Checkpoints` and `Investigation` cover the chain of workflow
checkpoints and the replay of a recorded investigation.

Conventions. SHA-256 digests are injective where they serve as identifiers (constructors of a
datatype stand for them); where the digest itself is compared (`OperatorCase`) nothing is assumed
of it, and the builder's theorem asks only that the shortened digests of one timeline's entries
do not collide. Money is exact, in units of 1e-12. Clocks, prompts and replies are arbitrary.

Seven statements are sharper than the documentation of the repository, because the code is:

* A restart of the QQ runtime charges recorded usage, while the run that made the call charged
  the reservation when no usage was reported. Their totals agree if and only if every reply
  reported its usage (`DieAndRestart`, `RestartRebuildsTheRun`, `UnreportedUsageIsForgotten`).
  A turn passed by a retry is not passed again: the restarted session ends there.
* A restart of a QQ session that has ended does not always end alike. A read that was denied, timed
  out or repeated without progress is durable as an action, and the restart carries it out and
  goes on; a ready or denied response becomes a malformed one (`EndAndRestart`).
* Reservations of the QQ runtime fit its token, total and cost limits, but reported usage is charged
  unseen. The limits hold while no reported usage outruns its reservation (`WithinWhileHonest`);
  a single reply can break them otherwise (`ReportedUsageMayOutrunLimits`), and no weaker condition
  on a reply would do for all configurations (`HonestyIsExact`).
* `settle_provider_call` writes the settlement before it compares it. Budget bounds therefore hold
  as long as the log shows no settlement over its reservation (`RunLedger`), and between observation
  and settlement the ledger may count less than was used, exactly when the usage outran its
  reservation (`BudgetCovers`, `ObservedUsageMayOutrunBudget`). The retry count of a settlement is
  not compared at all, and can leave the retries over their limit (`SettlementMayExceedRetries`);
  they stay within it as long as the log shows no settlement with more retries than its reservation
  (`RunLedger`, `SettlementKeepsRetries`).
* `recover_attempt` records the unknown outcome and closes the attempt by two writes. If it is
  stopped between them, no later recovery finds anything to close, and the attempt stays open for
  good (`RunThenRecover`).
* The Python contract of the snapshot asks for exactly one entry of each gate kind; the two
  TypeScript validators count only entries with the expected observation (`PythonIsStricter`).
* The Python and TypeScript printers agree on a value if and only if its TypeScript text is below
  127 throughout (`StylesAgree`).

## Model

| member | source | states |
|---|---|---|
| Money.RoundedMillionthIsNearest | apps/agent-runtime/src/weflow_agent_runtime/live_budget.py:90-98 | the rounding of an estimated cost is to a nearest unit: no other unit is closer |
| Money.TiesToEven | apps/agent-runtime/src/weflow_agent_runtime/live_budget.py:90-98 | at a tie the even neighbour is taken |
| Money.PricedPerMillion | apps/agent-runtime/src/weflow_agent_runtime/live_budget.py:90-98 | a million tokens of a kind cost the price of that kind, and both kinds together what they cost apart, up to the rounding |
| QQModelJournal.Journal.AppendIntent | packages/python/weflow-control-kernel/src/weflow_control_kernel/qq_model.py:550-593 | an intent is written once for a turn: the same again is ignored, another is refused and leaves the journal as it was |
| QQModelJournal.Journal.AppendObservation | packages/python/weflow-control-kernel/src/weflow_control_kernel/qq_model.py:550-593 | an observation is written once for a turn, and an unclassified unknown outcome is refused |
| QQModelJournal.Journal.AppendAction | packages/python/weflow-control-kernel/src/weflow_control_kernel/qq_model.py:642-649 | the first action of a turn stays; a second is ignored |
| QQModelJournal.Journal.AppendToolResult | packages/python/weflow-control-kernel/src/weflow_control_kernel/qq_model.py:659-672 | a tool result whose identity or sequence number is taken is ignored; any other goes to the place of its number, between the smaller and the larger ones |
| QQModelJournal.Journal.AppendBudget | packages/python/weflow-control-kernel/src/weflow_control_kernel/qq_model.py:683-689 | a budget snapshot is refused exactly if one of its counters is over the reserved block; a taken sequence number keeps its snapshot |
| QQModelTurns.SoundAfterIntent | apps/agent-runtime/src/weflow_agent_runtime/qq_model.py:670-691 | a new intent behind settled turns keeps every journal invariant, before the provider is contacted |
| QQModelTurns.SoundAfterCall | apps/agent-runtime/src/weflow_agent_runtime/qq_model.py:692-699 | a contact made after its intent keeps them |
| QQModelTurns.SoundAfterObservation | apps/agent-runtime/src/weflow_agent_runtime/qq_model.py:739-749 | recording what the last contact replied keeps them |
| QQModelTurns.SoundAfterAction | apps/agent-runtime/src/weflow_agent_runtime/qq_model.py:812 | recording the action of a completed last turn keeps them |
| QQModelTurns.SoundAfterToolResult | apps/agent-runtime/src/weflow_agent_runtime/qq_model.py:891-898 | a tool result that answers a recorded read of a tool not yet read goes last, and keeps them |
| QQModelAccounts.HeadIsSettled | apps/agent-runtime/src/weflow_agent_runtime/qq_model.py:471-491 | when all recorded turns are behind a session a further call may follow, and each turn was contacted |
| QQModelAccounts.ReplayedEntries | apps/agent-runtime/src/weflow_agent_runtime/qq_model.py:490-602 | a session that has only replayed stands, with counters, history and evidence, where the journal alone puts it |
| QQModelAccounts.SessionSpendCovers | apps/agent-runtime/src/weflow_agent_runtime/qq_model.py:642-656 | a reservation that fits what the session spent also fits what any later session will find spent |
| QQModelAccounts.WithinWhileHonest | apps/agent-runtime/src/weflow_agent_runtime/qq_model.py:642-669 | while no reported usage outruns its reservation, what a session spends stays within the token, total and cost limits, whatever it found in the journal |
| QQModelAccounts.HonestyIsExact | apps/agent-runtime/src/weflow_agent_runtime/qq_model.py:642-738 | what a reply is charged stays within every configuration in which its reservation fitted if and only if it reports no more of either kind of token than was reserved |
| QQModelVerdicts.VerdictCases | apps/agent-runtime/src/weflow_agent_runtime/qq_model.py:751-838 | what a reply comes to, case by case: retry, failure with its classification, missing or malformed proposal, no progress, or what the proposal itself demands |
| QQModelVerdicts.ReadInOrder | apps/agent-runtime/src/weflow_agent_runtime/qq_model.py:839-890 | a read of the next required tool goes on exactly if it has a source that does not time out |
| QQModelVerdicts.SameVerdict | apps/agent-runtime/src/weflow_agent_runtime/qq_model.py:700-811 | charging the call does not change what its reply comes to |
| QQModelVerdicts.ReadyExactly | apps/agent-runtime/src/weflow_agent_runtime/qq_model.py:929-978 | a session ends with a response ready if and only if its last reply completed a well-formed candidate over exactly the evidence gathered, three pieces, with a draft that can be rendered; the candidate text is that draft, and any other end has none |
| QQModelRuntime.Runtime.SaveBudget | apps/agent-runtime/src/weflow_agent_runtime/qq_model.py:145-184 | a snapshot of the counters is saved exactly when they are within their limits, and is then in the journal under its number unless that was taken |
| QQModelRuntime.Runtime.Finish | apps/agent-runtime/src/weflow_agent_runtime/qq_model.py:340-390 | a session ends with the outcome, reason, candidate, evidence and action it was given, its final counters saved under the last number, or is refused for its budget; of the counters only the wall time moves, up to its limit |
| QQModelRuntime.Runtime.LoadToolResults | apps/agent-runtime/src/weflow_agent_runtime/qq_model.py:451-469 | the evidence lists are rebuilt from the durable tool results in order; it fails exactly when one names no source |
| QQModelRuntime.Runtime.Restart | apps/agent-runtime/src/weflow_agent_runtime/qq_model.py:427-469 | a restart forgets all volatile state and stands at the head of the loop with nothing accounted |
| QQModelRuntime.Runtime.ChargeRecorded | apps/agent-runtime/src/weflow_agent_runtime/qq_model.py:490-536 | recorded usage is charged, or the whole reservation if there is no observation or an unknown outcome without usage |
| QQModelRuntime.Runtime.ReplayTurn | apps/agent-runtime/src/weflow_agent_runtime/qq_model.py:490-577 | a recorded turn is charged by the recovery rule and passed without contacting the provider, or ends the session: as an unknown outcome with the reservation charged if its observation is missing, otherwise as its observation and action say |
| QQModelRuntime.Runtime.ReplayAction | apps/agent-runtime/src/weflow_agent_runtime/qq_model.py:573-630 | only a recorded read lets the session go on |
| QQModelRuntime.Runtime.CarryOutRecorded | apps/agent-runtime/src/weflow_agent_runtime/qq_model.py:585-630 | the result of a recorded read is durable before the session goes on; any other recorded action ends it |
| QQModelRuntime.Runtime.ReplayRead | apps/agent-runtime/src/weflow_agent_runtime/qq_model.py:585-602 | a recorded read whose result is missing is read again; one that is there changes nothing |
| QQModelRuntime.Runtime.ReadTool | apps/agent-runtime/src/weflow_agent_runtime/qq_model.py:891-898 | the tool result is durable before the session counts it |
| QQModelRuntime.Runtime.Reserve | apps/agent-runtime/src/weflow_agent_runtime/qq_model.py:642-668 | the next call is reserved at a token for four characters, at least one, and the output limit up to 600, exactly if that fits the token, total and cost limits and time is left |
| QQModelRuntime.Runtime.Contact | apps/agent-runtime/src/weflow_agent_runtime/qq_model.py:631-699 | the provider is contacted once, exactly if the call can be reserved, after checkpoint and intent are durable, the checkpoint with the counters of the moment; at any crash the journal is sound |
| QQModelRuntime.Runtime.RecordAndPropose | apps/agent-runtime/src/weflow_agent_runtime/qq_model.py:683-699 | the intent is durable when the provider is contacted |
| QQModelRuntime.Runtime.ChargeReply | apps/agent-runtime/src/weflow_agent_runtime/qq_model.py:700-738 | reported usage is charged, otherwise the reservation |
| QQModelRuntime.Runtime.RecordReply | apps/agent-runtime/src/weflow_agent_runtime/qq_model.py:700-750 | the turn is charged, then its observation made durable: what the provider returned, or nothing used and a malformed or unknown outcome if it returned nothing |
| QQModelRuntime.Runtime.Weigh | apps/agent-runtime/src/weflow_agent_runtime/qq_model.py:751-811 | a retry is made if and only if the error is retryable, the provider allows it and retries are left; otherwise the session goes on or ends, with reason and candidate, exactly as the reply demands |
| QQModelRuntime.Runtime.FreshTurn | apps/agent-runtime/src/weflow_agent_runtime/qq_model.py:631-913 | a fresh turn contacts the provider at most once and either passes the turn as one more accounted turn or ends as the reply to that contact demands; without a contact only where the call could not be reserved |
| QQModelRuntime.Runtime.TakeAction | apps/agent-runtime/src/weflow_agent_runtime/qq_model.py:812-838 | the action is durable before it is carried out; one that repeats the last for the limit of no progress always ends the session, without a read; any other goes on or ends as the proposal demands |
| QQModelRuntime.Runtime.StopForNoProgress | apps/agent-runtime/src/weflow_agent_runtime/qq_model.py:815-832 | it ends for the operator, with the repeated action counted |
| QQModelRuntime.Runtime.CarryOut | apps/agent-runtime/src/weflow_agent_runtime/qq_model.py:839-978 | reads go on, terminal actions end the session, with the reason and the candidate that the proposal demands |
| QQModelRuntime.Runtime.ReadRequired | apps/agent-runtime/src/weflow_agent_runtime/qq_model.py:839-913 | only the next required tool is read; a repeated, misplaced or unsourced read ends the session, each for its own reason |
| QQModelRuntime.Runtime.ReadSource | apps/agent-runtime/src/weflow_agent_runtime/qq_model.py:860-913 | the required tool is read behind a saved snapshot of the counters; its result is durable first, and a timed-out or missing source ends the session |
| QQModelRuntime.Runtime.Answer | apps/agent-runtime/src/weflow_agent_runtime/qq_model.py:929-978 | a candidate is ready exactly if it cites the evidence gathered, in order, all three pieces of it, with a draft that can be rendered, and its text is that draft; every other one is refused for its reason |
| QQModelRuntime.Runtime.TakeTurn | apps/agent-runtime/src/weflow_agent_runtime/qq_model.py:471-490 | one turn of the loop keeps the session invariant; a recorded one contacts nobody, changes nothing in a settled journal, and ends the session only as what is recorded says or with its actions or calls exhausted; without an action left the session ends for that, and otherwise a fresh turn goes on or ends exactly as the reply to its one contact demands |
| QQModelRuntime.Runtime.Step | apps/agent-runtime/src/weflow_agent_runtime/qq_model.py:471-490 | one turn, keeping the heads of the loop at which no recorded turn is left |
| QQModelRuntime.Runtime.EndOfCalls | apps/agent-runtime/src/weflow_agent_runtime/qq_model.py:979-991 | when the calls have run out the session ends for its budget with an account of its result |
| QQModelRuntime.Runtime.Run | apps/agent-runtime/src/weflow_agent_runtime/qq_model.py:420-991 | from any sound journal: nothing recorded is lost and no recorded turn contacts the provider again; the first head of the loop without a recorded turn left is what the journal alone determines, evidence lists and tool count included; a result accounts for its counters turn by turn and stays within the token, total and cost limits while reported usage is honest; behind the last such head the provider is contacted at most once, and only with every counter within its limit, a call and an action left, time and room in the budget; outcome, reason and candidate of a session that went on past that head are those its last reply demands, or say what was exhausted; a session that never comes to such a head ends as the turn it stopped at says or with its actions or calls exhausted. From an empty journal evidence follows the required order, calls are at most required + retries + 1, and the required list is never overrun |
| QQModelSessions.RunSessions | apps/agent-runtime/src/weflow_agent_runtime/qq_model.py:420-991 | over any number of sessions, each stopped anywhere, every turn is contacted at most once, all contacts have intents and fit the call limit left by earlier requests, and every saved snapshot is within the limits |
| QQModelSessions.SoundMeansContactedOnce | apps/agent-runtime/src/weflow_agent_runtime/qq_model.py:471-519 | the journal invariants imply at-most-once contact for consecutive turns within the limit |
| QQModelSessions.TallyDominates | apps/agent-runtime/src/weflow_agent_runtime/qq_model.py:520-535 | two accounts of the same turns agree on all but tokens and cost, and on those too exactly when they are the same account |
| QQModelSessions.RestartRebuildsTheRun | apps/agent-runtime/src/weflow_agent_runtime/qq_model.py:490-577 | the state the journal alone determines behind a head of the loop against the state of the run that came there: the same evidence and counters, and the same tokens and cost if and only if every reply it saw reported its usage |
| QQModelSessions.NothingNew | apps/agent-runtime/src/weflow_agent_runtime/qq_model.py:471-491 | behind a head of the loop nothing can be recorded before a further intent |
| QQModelSessions.DieAndRestart | apps/agent-runtime/src/weflow_agent_runtime/qq_model.py:420-991 | two sessions, the first stopped in any way: if it intended no call after its last head of the loop, the second comes to the same evidence and counters, and the same tokens and cost if and only if all usage was reported; one that finishes short of that has exhausted its actions or calls or met a retried turn |
| QQModelSessions.EndAndRestart | apps/agent-runtime/src/weflow_agent_runtime/qq_model.py:490-630 | a session that ended other than for its budget, then another: without retries behind it the second reads on where the last action was a read, and otherwise ends at the same turn without contact, in the same way if and only if that was an unknown outcome, a malformed output, or a stop the model itself asked for; after a retry it ends there as malformed |
| QQModelSessions.HeadWithinWhileHonest | apps/agent-runtime/src/weflow_agent_runtime/qq_model.py:642-669 | the limits hold at every head of the loop, too, while reported usage is honest |
| QQModelSessions.ReportedUsageMayOutrunLimits | apps/agent-runtime/src/weflow_agent_runtime/qq_model.py:716-738 | a reply that reports more than the total limit leaves a sound head of the loop over that limit |
| QQModelSessions.UnreportedUsageIsForgotten | apps/agent-runtime/src/weflow_agent_runtime/qq_model.py:520-529 | for every source, fitting reservation and completed reply without reported usage there is a sound head of the loop from whose journal a restart rebuilds no charge at all |
| LiveTables.StoreSound | apps/agent-runtime/src/weflow_agent_runtime/live_store.py:88-166 | after any sequence of operations on a new store every foreign key, unique column and primary key of the schema holds |
| LiveTables.StoreGrows | apps/agent-runtime/src/weflow_agent_runtime/live_store.py:178-205 | over any sequence of operations rows stay as they were, but for an outcome and an action that are each written once |
| LiveTables.WrittenOnce | apps/agent-runtime/src/weflow_agent_runtime/live_store.py:178-205 | an accepted operation, repeated at any later time, changes nothing, and any other content for the same cell is refused then |
| LiveTables.AcceptedHolds | apps/agent-runtime/src/weflow_agent_runtime/live_store.py:330-415 | what an accepted operation wrote is there, and well-formed: totals add up, only a completed observation has no failure class, evidence is distinct, and no amount is negative |
| LiveTables.HeldDecides | apps/agent-runtime/src/weflow_agent_runtime/live_store.py:189-194 | what the store holds decides whether an operation on its cell is a repeat or a conflict |
| LiveTables.BudgetsAreSeparate | apps/agent-runtime/src/weflow_agent_runtime/live_store.py:391-438 | no operation but a budget event of the same attempt changes the budget events of an attempt |
| LiveStore.LiveEvaluationStore.InsertImmutable | apps/agent-runtime/src/weflow_agent_runtime/live_store.py:178-205 | a row is inserted once; a repeat is ignored; a conflict or a missing parent leaves the table as it was |
| LiveStore.LiveEvaluationStore.AppendSession | apps/agent-runtime/src/weflow_agent_runtime/live_store.py:207-227 | adds a session as its operation says |
| LiveStore.LiveEvaluationStore.AppendAttempt | apps/agent-runtime/src/weflow_agent_runtime/live_store.py:229-269 | adds an attempt; a repeat compares only what never changes |
| LiveStore.LiveEvaluationStore.AppendTurn | apps/agent-runtime/src/weflow_agent_runtime/live_store.py:271-307 | adds a turn; a repeat ignores its action |
| LiveStore.LiveEvaluationStore.RecordNormalizedAction | apps/agent-runtime/src/weflow_agent_runtime/live_store.py:309-328 | a turn has one action for good |
| LiveStore.LiveEvaluationStore.AppendIntent | apps/agent-runtime/src/weflow_agent_runtime/live_store.py:330-343 | adds a valid intent of an existing turn |
| LiveStore.LiveEvaluationStore.AppendObservation | apps/agent-runtime/src/weflow_agent_runtime/live_store.py:345-358 | adds a valid observation, one for each existing intent |
| LiveStore.LiveEvaluationStore.AppendDraftArtifact | apps/agent-runtime/src/weflow_agent_runtime/live_store.py:360-374 | adds a draft, one for an attempt and producer, with no evidence twice |
| LiveStore.LiveEvaluationStore.AppendCandidateBinding | apps/agent-runtime/src/weflow_agent_runtime/live_store.py:376-389 | adds a binding, one for an artifact |
| LiveStore.LiveEvaluationStore.AppendBudgetEvent | apps/agent-runtime/src/weflow_agent_runtime/live_store.py:391-438 | adds an event with non-negative payload under its identity |
| LiveStore.LiveEvaluationStore.CloseAttempt | apps/agent-runtime/src/weflow_agent_runtime/live_store.py:440-473 | an attempt has one outcome for good |
| LiveStore.LiveEvaluationStore.BudgetEvents | apps/agent-runtime/src/weflow_agent_runtime/live_store.py:532-544 | the events of one attempt in the order they were written |
| LiveStore.LiveEvaluationStore.IntentRows | apps/agent-runtime/src/weflow_agent_runtime/live_store.py:566-583 | exactly the calls of the attempt, each once, by turn |
| LiveStore.LiveEvaluationStore.ReusableRows | apps/agent-runtime/src/weflow_agent_runtime/live_store.py:628-632 | exactly the recorded observations of calls of the attempt whose turns have their action, each once, by turn |
| LiveStore.ReusableMeans | apps/agent-runtime/src/weflow_agent_runtime/live_store.py:628-632 | an observation is reusable if and only if it is the recorded one of a call of the attempt whose turn has its action |
| LiveStore.LiveEvaluationStore.RecoverAttempt | apps/agent-runtime/src/weflow_agent_runtime/live_store.py:557-633 | the first call without outcome is recorded at its reservation, then the attempt closed, by two writes between which it may be stopped; with none, nothing changes and exactly the recorded observations of the turns that have their action are returned, by turn |
| LiveStore.LiveEvaluationStore.CloseUnknown | apps/agent-runtime/src/weflow_agent_runtime/live_store.py:587-627 | the observation is durable before the attempt is closed; it charges the call with all that was reserved, as if it had timed out, and the attempt ends as unknown |
| LiveBudget.LiveBudgetLedger.Snapshot | apps/agent-runtime/src/weflow_agent_runtime/live_budget.py:57-88 | the loops compute the fold of the events in which a settlement replaces its reservation |
| LiveBudget.LiveBudgetLedger.ReserveProviderCall | apps/agent-runtime/src/weflow_agent_runtime/live_budget.py:100-153 | refused for the budget exactly when the wall time would run out or one more call with its posting would exceed the limit on calls, input, output, total, cost or retries; a granted call ends within the wall limit; the event is new or repeated, and every bound is kept |
| LiveBudget.FitsWithinLimits | apps/agent-runtime/src/weflow_agent_runtime/live_budget.py:117-125 | a call fits exactly when nothing that the refusal names, limit by limit, would be exceeded |
| LiveBudget.LiveBudgetLedger.SettleProviderCall | apps/agent-runtime/src/weflow_agent_runtime/live_budget.py:155-190 | puts the usage in place of the reservation in every sum, retries included, whether or not it then reports an overrun, and never raises a token or cost sum without reporting one |
| LiveBudget.LiveBudgetLedger.ConsumeCount | apps/agent-runtime/src/weflow_agent_runtime/live_budget.py:192-237 | refused exactly when the count stands at its limit, that of actions, tools or repeats; every bound is kept |
| LiveBudget.OverReservation | apps/agent-runtime/src/weflow_agent_runtime/live_budget.py:184-190 | of the four tests after a settlement the two on input and output decide |
| LiveBudget.ReservationPosted | apps/agent-runtime/src/weflow_agent_runtime/live_budget.py:66-67 | a new reservation adds its posting to the effective ones |
| LiveBudget.SettlementPosted | apps/agent-runtime/src/weflow_agent_runtime/live_budget.py:68-77 | a settlement replaces the posting of its reservation |
| LiveBudget.RunLedger | apps/agent-runtime/src/weflow_agent_runtime/live_budget.py:90-237 | over any run of ledger operations with any arguments, every reserved call ends within the wall limit; every limit but that of the retries holds as long as the log shows no settlement over its reservation, and that of the retries as long as it shows none that reports more retries |
| LiveBudget.SettlementKeepsRetries | apps/agent-runtime/src/weflow_agent_runtime/live_budget.py:155-182 | a settlement leaves the retries within their limit if and only if what it posts fits what the other calls leave |
| LiveBudget.SettlementMayExceedRetries | apps/agent-runtime/src/weflow_agent_runtime/live_budget.py:117-122 | a reservation and its settlement can both succeed and leave the retries over their limit, whatever the profile |
| LiveEvidence.ReservedMovesOn | apps/agent-runtime/src/weflow_agent_runtime/live_runtime.py:639-648 | a reservation starts a call and adds to the counters |
| LiveEvidence.IntentMovesOn | apps/agent-runtime/src/weflow_agent_runtime/live_runtime.py:660-671 | the intent of the latest call becomes durable, and was not before |
| LiveEvidence.ObservationMovesOn | apps/agent-runtime/src/weflow_agent_runtime/live_runtime.py:673-683 | the observation ends the contact; the budget agrees at once if all that was reserved was used |
| LiveEvidence.SettlementMovesOn | apps/agent-runtime/src/weflow_agent_runtime/live_runtime.py:684-698 | the settlement makes the budget agree with the observation |
| LiveEvidence.BudgetAgrees | apps/agent-runtime/src/weflow_agent_runtime/live_runtime.py:638-700 | between calls the budget sums of tokens and cost equal the sums over all recorded observations |
| LiveEvidence.BudgetCovers | apps/agent-runtime/src/weflow_agent_runtime/live_runtime.py:681-698 | within a call they are at least that, if and only if an observation still to be settled stays within its reservation |
| LiveEvidence.ObservedUsageMayOutrunBudget | apps/agent-runtime/src/weflow_agent_runtime/live_runtime.py:638-683 | from any open attempt a reservation, its intent and an observation of more tokens than reserved lead to a state in which the budget counts less than was used |
| LiveEvidence.FirstTurnEvident | apps/agent-runtime/src/weflow_agent_runtime/live_runtime.py:618-636 | an attempt just opened, with its first turn, is such an attempt |
| LiveEvidence.EveryObservationCounted | apps/agent-runtime/src/weflow_agent_runtime/live_store.py:518-531 | the observations summed over are all those of the attempt, each once |
| LiveEvidence.OnlyTheLatestDangles | apps/agent-runtime/src/weflow_agent_runtime/live_store.py:566-586 | a call without outcome is the latest, and then nothing else is |
| LiveEvidence.RepeatedCall | apps/agent-runtime/src/weflow_agent_runtime/live_runtime.py:638-672 | a call once intended is let through to the provider again if and only if its reservation, elapsed time included, and its intent are repeated exactly |
| LiveEvidence.RecoveryDrains | apps/agent-runtime/src/weflow_agent_runtime/live_store.py:584-627 | recovery of such a call is never refused: it records exactly the reservation, leaves the budget and no call without outcome, and closes the attempt unless it is stopped before that |
| LiveRuntime.LiveRuntime.ReserveCall | apps/agent-runtime/src/weflow_agent_runtime/live_runtime.py:638-659 | a call is reserved exactly if the ledger has room for it and time, or the attempt is closed for its budget |
| LiveRuntime.LiveRuntime.AskLedger | apps/agent-runtime/src/weflow_agent_runtime/live_runtime.py:631-648 | the ledger refuses exactly the calls over a limit, written out limit by limit |
| LiveRuntime.LiveRuntime.ContactProvider | apps/agent-runtime/src/weflow_agent_runtime/live_runtime.py:660-672 | the provider is contacted once, after the intent is durable, and what it replied is returned |
| LiveRuntime.LiveRuntime.ObserveCall | apps/agent-runtime/src/weflow_agent_runtime/live_runtime.py:673-698 | exactly what the provider replied is recorded, or the reservation for a reply without usage, then settled, in that order at every crash; the list of observations gathered is that of the calls, in order |
| LiveRuntime.LiveRuntime.SettleCall | apps/agent-runtime/src/weflow_agent_runtime/live_runtime.py:684-698 | once the usage is posted the attempt goes on, or ends for an overrun that its observations show |
| LiveRuntime.LiveRuntime.PostUsage | apps/agent-runtime/src/weflow_agent_runtime/live_runtime.py:684-698 | a settlement puts the recorded usage in place of the reservation, in the books before it is compared |
| LiveRuntime.LiveRuntime.MakeCall | apps/agent-runtime/src/weflow_agent_runtime/live_runtime.py:638-700 | one call, reserved, intended, made, observed and settled; its result is the reply of the last contact; if it ends the attempt it was refused for its budget or overran its reservation |
| LiveRuntime.LiveRuntime.CallWithRetries | apps/agent-runtime/src/weflow_agent_runtime/live_runtime.py:636-700 | at most retry limit + 1 calls for a turn, each counted; the result is the reply of the last one, which asks for no retry unless none was left; refused calls end the attempt for the limit they exceed |
| LiveRuntime.LiveRuntime.CountAction | apps/agent-runtime/src/weflow_agent_runtime/live_runtime.py:729-733 | the budget of actions is never exceeded here |
| LiveRuntime.LiveRuntime.CountProgress | apps/agent-runtime/src/weflow_agent_runtime/live_runtime.py:734-763 | a repeated action is counted, and ends the attempt exactly if it stands one below the limit |
| LiveRuntime.LiveRuntime.StopAtLimit | apps/agent-runtime/src/weflow_agent_runtime/live_runtime.py:734-763 | a counted repeat ends the attempt exactly if it stands one below the limit |
| LiveRuntime.RepeatsDecide | apps/agent-runtime/src/weflow_agent_runtime/live_runtime.py:734-763 | the repeats counted before an action decide whether it is at that limit |
| LiveRuntime.FailuresNamed | apps/agent-runtime/src/weflow_agent_runtime/live_runtime.py:700-716 | a reply that failed or brought no proposal ends the attempt under the name of its status, and for the reason that the provider gave, or for that status |
| LiveRuntime.ReadyExactly | apps/agent-runtime/src/weflow_agent_runtime/live_runtime.py:700-865 | an attempt ends with a response ready if and only if its last reply proposed a safe draft that cites all evidence, nothing twice, without repeating itself up to the limit, and the verifier passed it |
| LiveRuntime.LiveRuntime.TakeAction | apps/agent-runtime/src/weflow_agent_runtime/live_runtime.py:729-879 | an action once handed to the workflow is the proposed one; the attempt goes on exactly after a read that is carried out, and otherwise ends with the outcome and the reason that the action demands |
| LiveRuntime.LiveRuntime.HandOn | apps/agent-runtime/src/weflow_agent_runtime/live_runtime.py:764-771 | the action is recorded with its turn, and only then handed to the workflow |
| LiveRuntime.LiveRuntime.ReadTool | apps/agent-runtime/src/weflow_agent_runtime/live_runtime.py:772-801 | a read is counted, then its content becomes the next item of evidence under the reference of its turn; a tool without source or one that times out ends the attempt for its reason |
| LiveRuntime.LiveRuntime.Gather | apps/agent-runtime/src/weflow_agent_runtime/live_runtime.py:772-801 | the evidence is kept before a time-out ends the attempt |
| LiveRuntime.SetAndLengthDecide | apps/agent-runtime/src/weflow_agent_runtime/live_runtime.py:332-335 | comparing sets and lengths accepts exactly the permutations of the evidence references |
| LiveRuntime.LiveRuntime.DraftProblem | apps/agent-runtime/src/weflow_agent_runtime/live_runtime.py:328-336 | a draft is accepted exactly when it is there, safe and citing all evidence, nothing twice; otherwise the first of these that fails is the reason |
| LiveRuntime.LiveRuntime.BindCandidate | apps/agent-runtime/src/weflow_agent_runtime/live_runtime.py:336-428 | draft and binding are stored with the content hashes in the order of the reads |
| LiveRuntime.LiveRuntime.Answer | apps/agent-runtime/src/weflow_agent_runtime/live_runtime.py:815-865 | a safe draft that cites all reads, nothing twice, is bound with the contents in their order and goes to the verifier, which decides the outcome; any other draft ends the attempt for its reason |
| LiveRuntime.LiveRuntime.TakeTurn | apps/agent-runtime/src/weflow_agent_runtime/live_runtime.py:618-801 | one turn keeps every invariant or ends the attempt, whatever the provider does and wherever the process stops; it goes on or ends as the last reply demands, and the action handed on is what that contact proposed |
| LiveRuntime.LiveRuntime.Judge | apps/agent-runtime/src/weflow_agent_runtime/live_runtime.py:700-771 | what the reply of a turn comes to: outcome and reason for each way in which it can fail, and otherwise what its action demands |
| LiveRuntime.LiveRuntime.TakeTurns | apps/agent-runtime/src/weflow_agent_runtime/live_runtime.py:618-879 | turns are taken up to the action limit; only when all are taken, all reads, does the attempt end for them |
| LiveRuntime.LiveRuntime.Run | apps/agent-runtime/src/weflow_agent_runtime/live_runtime.py:569-879 | a fresh attempt ends; wherever it stops the evidence of its calls is intact and what the provider replied, the calls bounded, the budget kept unless a recorded usage outran its reservation, the observations listed are those of its calls in order, the evidence gathered is one item for each read in order, adjacent repeats at most max(0, limit - 2), and outcome and reason those that its last reply demands, or for a budget only if every action was taken and all were reads, or a call, limit by limit, could not be reserved; response_ready only with a candidate bound to all of that evidence |
| LiveRuntime.TriangleIs | apps/agent-runtime/src/weflow_agent_runtime/live_runtime.py:638-648 | the retries charged for n calls of a turn are n(n - 1)/2 |
| LiveSessions.IntactCalls | apps/agent-runtime/src/weflow_agent_runtime/live_runtime.py:618-700 | each call is for its own invocation with a durable intent; calls are at most min(call limit, action limit + retry limit), and n calls of a turn need n(n - 1)/2 retries; each was reserved to end within the wall limit |
| LiveSessions.ReusedAreActed | apps/agent-runtime/src/weflow_agent_runtime/live_store.py:628-632 | after any run what recovery returns as reusable are the observations of turns whose action was handed on |
| LiveSessions.Recovered | apps/agent-runtime/src/weflow_agent_runtime/live_store.py:557-633 | what one recovery, stopped anywhere, does to any state in which an attempt can be left |
| LiveSessions.DanglingMeansContact | apps/agent-runtime/src/weflow_agent_runtime/live_store.py:557-586 | one call at most is without outcome, exactly when the attempt was left in contact |
| LiveSessions.RecoverRepeatedly | apps/agent-runtime/src/weflow_agent_runtime/live_store.py:557-633 | any number of recoveries, each stopped anywhere: of an attempt left in contact at most one writes, after which no call is without outcome and the budget agrees; the attempt is closed then if and only if none was stopped between its two writes; any other attempt stays as it was |
| LiveSessions.RunThenRecover | apps/agent-runtime/src/weflow_agent_runtime/live_runtime.py:569-879 | a run stopped anywhere, and any number of recoveries after it, each stopped anywhere: the calls are distinct, intended and within their limits, the budget is kept unless a recorded usage outran its reservation; recovery never fails, leaves the budget, and settles the attempt as `RecoverRepeatedly` says, and what it hands back is exactly the recorded observations of the turns whose action was handed on |
| CanonicalJson.PrintedValueRead | packages/typescript/weflow-contracts/src/index.ts:1427-1436 | a reader gets back from the canonical text of any JSON value what the value means, and the rest of the text |
| CanonicalJson.StringRead | packages/typescript/weflow-contracts/src/index.ts:1433-1435 | string escapes are undone, surrogates on their own included |
| CanonicalJson.SortedMeans | packages/typescript/weflow-contracts/src/index.ts:1433 | sorting members changes nothing but their order |
| CanonicalJson.SortedByCodeUnits | packages/typescript/weflow-contracts/src/index.ts:1433 | of any two keys of a sorted object the earlier is a proper prefix of the later, or has the smaller code unit where they first differ |
| CanonicalJson.Spelled | packages/typescript/weflow-contracts/src/index.ts:1427-1436 | the words and marks of the text are those of JSON |
| CanonicalJson.EscapesAreShort | packages/typescript/weflow-contracts/src/index.ts:1433-1435 | which unit is written how: as itself, by a short escape, or by its four hexadecimal digits |
| CanonicalJson.PairsAreKept | packages/typescript/weflow-contracts/src/index.ts:1433-1435 | a surrogate pair is written as itself |
| CanonicalJson.NoLeadingZero | packages/typescript/weflow-contracts/src/index.ts:1427-1432 | no number begins with a zero but zero itself |
| CanonicalJson.OneMeaningOneText | packages/typescript/weflow-contracts/src/index.ts:1427-1436 | values equal but for the order of members have one text |
| CanonicalJson.CanonicalTextDecides | apps/web-console/src/operator-case.ts:332-341 | two values have the same canonical text if and only if they are equal but for the order of members |
| CanonicalJson.TextPaired | packages/typescript/weflow-contracts/src/index.ts:1427-1436 | the text has surrogates in pairs only, so that UTF-8 encodes it without loss |
| CanonicalJson.StylesAgree | packages/python/weflow-contracts/src/weflow_contracts/operator_case.py:65-70 | the Python and TypeScript printers agree on a value if and only if the TypeScript text has no unit from 127 on |
| OperatorCase.LocalMeansWhole | packages/typescript/weflow-contracts/src/index.ts:1938-1978 | entries that pass one by one form a chained, phase-ordered, clean and identified timeline, and conversely |
| OperatorCase.CheckEntries | packages/typescript/weflow-contracts/src/index.ts:1932-1980 | the loop accepts exactly the timelines all of whose entries pass in their place |
| OperatorCase.PhasesOrderKinds | packages/typescript/weflow-contracts/src/index.ts:1836-1863 | the phases are in order if and only if no kind of source comes before one of an earlier group |
| OperatorCase.GatesPassed | packages/typescript/weflow-contracts/src/index.ts:1865-1868 | in an accepted timeline every verifier outcome, grant, policy decision, binding and approval has its gate passed |
| OperatorCase.DeliveryIsGated | packages/typescript/weflow-contracts/src/index.ts:2038-2051 | an accepted timeline has exactly one verified outcome, behind it one allowing policy decision, behind that one approval, their gates passed, and every delivery behind all three |
| OperatorCase.CountsTell | packages/typescript/weflow-contracts/src/index.ts:2014-2030 | each number of an accepted snapshot is how many entries of its kind the timeline has |
| OperatorCase.ContractValidate | packages/typescript/weflow-contracts/src/index.ts:1904-2053 | accepts exactly the sound and rightly digested snapshots |
| OperatorCase.CheckShape | apps/web-console/src/operator-case.ts:277-305 | the loop of the console accepts exactly the well-shaped timelines, and gathers their ids |
| OperatorCase.CheckDigests | apps/web-console/src/operator-case.ts:351-377 | the digests the console computes are those of the contract |
| OperatorCase.ConsoleValidate | apps/web-console/src/operator-case.ts:258-379 | the console accepts exactly what the contract accepts, if the numbers it pins are right |
| OperatorCase.PythonValidate | packages/python/weflow-contracts/src/weflow_contracts/operator_case.py:118-273 | accepts exactly the sound, rightly digested snapshots with one entry of each gate kind |
| OperatorCase.PythonIsStricter | packages/python/weflow-contracts/src/weflow_contracts/operator_case.py:249-273 | on ASCII the Python contract accepts exactly what the TypeScript one accepts without a second entry of a gate kind |
| OperatorCase.PythonTextsAscii | packages/python/weflow-contracts/src/weflow_contracts/operator_case.py:65-70 | what the Python contract digests is ASCII, whatever the snapshot holds |
| OperatorCase.OneEntryText | apps/web-console/src/operator-case.ts:356-364 | the programs digest one text for an entry, though they list its fields in different orders |
| OperatorCase.OneSourceText | apps/web-console/src/operator-case.ts:366-371 | and one text for the list of sources |
| OperatorCase.EntryTextDecides | packages/typescript/weflow-contracts/src/index.ts:1874-1887 | two entries have one text if and only if they stand at one place for one source: kind, id and content hash |
| OperatorCase.SourceTextDecides | packages/typescript/weflow-contracts/src/index.ts:2000-2012 | two lists of sources have one text if and only if they are equal, source by source |
| OperatorCase.IdTellsEntry | packages/typescript/weflow-contracts/src/index.ts:1874-1887 | an entry id tells place and source, unless half a digest collides |
| OperatorCaseBuilder.Build | apps/business-simulator/src/weflow_business_simulator/operator_case.py:298-478 | builds the specified snapshot, or refuses an empty, detached or invalid one |
| OperatorCaseBuilder.CheckpointStates | apps/business-simulator/src/weflow_business_simulator/operator_case.py:311-322 | the entry of a checkpoint goes from the state of the checkpoint before it to its own |
| OperatorCaseBuilder.StatesJoin | apps/business-simulator/src/weflow_business_simulator/operator_case.py:311-322 | where the entry of one checkpoint ends that of the next begins |
| OperatorCaseBuilder.OtherStates | apps/business-simulator/src/weflow_business_simulator/operator_case.py:246-293 | of the other entries only a delivery has a state, and that is the recorded delivery |
| OperatorCaseBuilder.GatesRecorded | apps/business-simulator/src/weflow_business_simulator/operator_case.py:250-294 | the builder passes the hard gates and that of the replay and no other; observation and result of each kind are its success |
| OperatorCaseBuilder.BuilderDecides | apps/business-simulator/src/weflow_business_simulator/operator_case.py:298-478 | without a collision of shortened digests the built snapshot passes the contract if and only if the source records meet a stated condition |
| OperatorCaseBuilder.GoodBundlesPass | apps/business-simulator/src/weflow_business_simulator/operator_case.py:476-478 | and then in ASCII it passes the TypeScript contract too, and the console exactly if its numbers are the pinned ones |
| Checkpoints.ValidateCheckpointSequence | packages/typescript/weflow-contracts/src/index.ts:1199-1256 | accepts exactly the chains in which each checkpoint fits its place; otherwise reports, of the first checkpoint that does not fit, the first check that fails |
| Checkpoints.FitsMeans | packages/typescript/weflow-contracts/src/index.ts:1220-1249 | a checkpoint fits exactly when none of the seven checks fails of it |
| Checkpoints.LinksTellOrder | packages/typescript/weflow-contracts/src/index.ts:1226-1232 | the predecessor link of a checkpoint names its neighbour and no other, and ids are distinct |
| Checkpoints.ChainGrows | packages/typescript/weflow-contracts/src/index.ts:1240-1252 | versions grow at least by the distance, completed effects only grow |
| Checkpoints.CompletedNeverPending | packages/typescript/weflow-contracts/src/index.ts:1237-1245 | an effect once completed is never pending again |
| Checkpoints.ExtendsByOne | packages/typescript/weflow-contracts/src/index.ts:1210-1254 | a chain is accepted exactly when its front is and its last checkpoint fits |
| Checkpoints.PrefixesAccepted | packages/typescript/weflow-contracts/src/index.ts:1210-1254 | every non-empty prefix of an accepted chain is accepted |
| Checkpoints.OneOrderOnly | packages/typescript/weflow-contracts/src/index.ts:1223-1236 | no other order of the same checkpoints is accepted |
| Investigation.RunReplay | apps/agent-runtime/src/weflow_agent_runtime/investigation.py:382-522 | a transcript is replayed exactly if the loader accepts it; then the budget failures and the missing end cannot happen, it stalls exactly where an action repeats up to the limit, and a candidate comes only after all three tools |
| Investigation.AllToolsRead | apps/agent-runtime/src/weflow_agent_runtime/investigation.py:159-166 | the list of tools read is the required one if and only if each tool is read |
| Investigation.LoadTranscript | apps/agent-runtime/src/weflow_agent_runtime/investigation.py:121-169 | the loader accepts exactly the transcripts of reads, every tool among them, and one terminal action, within their budgets |

## Left out

- LiveRuntime.LiveRuntime.Run: covers an attempt whose store holds nothing of it yet, as the specification of the evaluation prescribes (a fresh temporary store for each attempt); a second run over the rows of an interrupted one is not modelled as a run; `RepeatedCall` says which of its calls the store would let through.
- LiveRuntime.LiveRuntime.Run: may end because the store refuses a write; the contract checks inside the store can do that (a completed result without usage, the same tool read twice before a draft), and which runs meet them is not stated.
- LiveBudget.LiveBudgetLedger.SettleProviderCall: asks for a reservation that the ledger issued, and token counts are naturals.
- QQModelRuntime.Runtime.Run: one method in the repository; its steps are methods of their own here. Reason codes kept in the history, timestamps and the invocation record inside the result are not modelled, and usage of earlier requests is fixed over the sessions of one.
- OperatorCase.ContractValidate: the verdict is modelled, not the reason code; likewise for the console and the Python contract. Schema validation, patterns and closed vocabularies are taken as passed, capability flags and fixed labels are not fields of the model.
- CanonicalJson.CanonicalTextDecides: keys are ordered by code units for both printers; Python orders by code points, which differs only for keys outside the Basic Multilingual Plane. Numbers are integers.
- Checkpoints.ValidateCheckpointSequence: the four identity fields are one joined string; the schema of a single checkpoint is taken as valid.
- Investigation.RunReplay: the manifest carries the budgets of the transcript; faults injected into the workflow are not modelled.
- SQLite itself: tables are maps, the budget log a sequence; budget payloads are typed, so events of unknown kind or with missing keys do not occur.
- The provider adapters and their HTTP: a provider returns any result, but an unknown outcome has no usage.
- The workflow kernel, case ledger and policy engine: the runtime's calls into them are places where the process may stop; the actions handed on are recorded in order, and the verdict of the verifier on a draft and its evidence is a parameter.
- Draft files, redaction patterns and prompt text: a draft is safe or not, a prompt has any length.
- Floating point: rounded sums are exact here.
- The evaluation report validator of the console and the classification of event deliveries: they count and classify the records of one list and take no part in the invocation protocol or in the evidence it leaves.
- The QQ gateway, handlers, pairing, web pages and acceptance scripts: input and output around the protocol.
