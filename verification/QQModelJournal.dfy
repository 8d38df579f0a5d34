/** The durable evidence of one QQ assist request, and the untrusted provider it records.

    A logical turn id is a digest of the request and the turn number, an invocation id a
    digest of the turn id, an action digest covers the turn and the proposal, and an
    evidence id covers the turn, the tool and the source.  Digests are taken to be
    injective, so rows are keyed here by what was digested. */
module QQModelJournal {
  import opened Common

  datatype Tokens = Tokens(input: nat, output: nat) {
    function Total(): nat { input + output }
  }

  datatype Status = Completed | RetryableError | OutcomeUnknown | Malformed

  datatype Intent = Intent(turn: nat, reservation: Tokens)

  datatype Observation = Observation(turn: nat, reservation: Tokens, status: Status, usage: Tokens,
                                     latency: nat, classification: Option<string>) {
    predicate Classified() { status.OutcomeUnknown? ==> classification !in {None, Some("")} }
  }

  datatype Action = Action(turn: nat, kind: ActionType, proposal: Hash)

  /** A tool result; its evidence id is determined by all three components. */
  datatype ToolResult = ToolResult(turn: nat, tool: Tool, content: Hash)

  datatype ToolRow = ToolRow(sequence: nat, result: ToolResult)

  /** The counters of a case.  The total of tokens is always input + output. */
  datatype Usage = Usage(providerCalls: nat, input: nat, output: nat, tools: nat, actions: nat,
                         noProgress: nat, wallTime: nat, cost: nat) {
    function TotalTokens(): nat { input + output }

    predicate Within(limit: Usage) {
      && providerCalls <= limit.providerCalls && input <= limit.input && output <= limit.output
      && TotalTokens() <= limit.TotalTokens() && tools <= limit.tools && actions <= limit.actions
      && noProgress <= limit.noProgress && wallTime <= limit.wallTime && cost <= limit.cost
    }
  }

  /** Some counter is over its limit. */
  predicate OverSome(used: Usage, limit: Usage) {
    || used.providerCalls > limit.providerCalls || used.input > limit.input || used.output > limit.output
    || used.input + used.output > limit.input + limit.output || used.tools > limit.tools
    || used.actions > limit.actions || used.noProgress > limit.noProgress || used.wallTime > limit.wallTime
    || used.cost > limit.cost
  }

  datatype Snapshot = Snapshot(used: Usage, pessimistic: bool)

  /** The rows of one request: intents, observations and actions by turn, tool results in
      order of their sequence number, budget snapshots by sequence number. */
  datatype Tables = Tables(intents: map<nat, Intent>, observations: map<nat, Observation>,
                           actions: map<nat, Action>, toolRows: seq<ToolRow>,
                           budgets: map<nat, Snapshot>)

  // ---- What the journal holds about a turn ------------------------------------------

  datatype TurnRecord = TurnRecord(intent: Option<Intent>, observation: Option<Observation>,
                                   action: Option<Action>)

  function Lookup<T>(m: map<nat, T>, key: nat): Option<T> {
    if key in m then Some(m[key]) else None
  }

  function TurnAt(db: Tables, turn: nat): TurnRecord {
    TurnRecord(Lookup(db.intents, turn), Lookup(db.observations, turn), Lookup(db.actions, turn))
  }

  /** The n turns recorded after the calls of earlier requests. */
  function TurnsFrom(db: Tables, first: nat, n: nat): (turns: seq<TurnRecord>) {
    seq(n, i requires 0 <= i => TurnAt(db, first + 1 + i))
  }

  function Results(rows: seq<ToolRow>): seq<ToolResult> {
    seq(|rows|, i requires 0 <= i < |rows| => rows[i].result)
  }

  predicate HasTool(rows: seq<ToolRow>, tool: Tool) {
    exists i :: 0 <= i < |rows| && rows[i].result.tool == tool
  }

  /** A row goes in at its place in sequence order; one whose identity or whose sequence
      number is taken is ignored. */
  function WithToolRow(rows: seq<ToolRow>, row: ToolRow): seq<ToolRow> {
    if exists i :: 0 <= i < |rows| && (rows[i].result == row.result || rows[i].sequence == row.sequence)
    then rows
    else Inserted(rows, row)
  }

  function Inserted(rows: seq<ToolRow>, row: ToolRow): seq<ToolRow> {
    if rows == [] || rows[|rows| - 1].sequence < row.sequence then rows + [row]
    else Inserted(rows[..|rows| - 1], row) + [rows[|rows| - 1]]
  }

  /** The row stands at place k, behind a smaller sequence number and before larger ones only. */
  predicate PutAt(before: seq<ToolRow>, row: ToolRow, after: seq<ToolRow>, k: nat)
    requires k <= |before|
  {
    && after == before[..k] + [row] + before[k..] && (k > 0 ==> before[k - 1].sequence < row.sequence)
    && forall j :: k <= j < |before| ==> before[j].sequence > row.sequence
  }

  lemma {:induction false} InsertedInPlace(rows: seq<ToolRow>, row: ToolRow) returns (k: nat)
    ensures k <= |rows|
    ensures (forall i :: 0 <= i < |rows| ==> rows[i].sequence != row.sequence) ==>
              PutAt(rows, row, Inserted(rows, row), k)
  {
    var n := |rows| - 1;
    if rows == [] || rows[n].sequence < row.sequence {
      k := |rows|;
      assert rows[..k] == rows && rows[k..] == [];
    } else {
      k := InsertedInPlace(rows[..n], row);
      assert rows[..n][..k] == rows[..k] && rows[..n][k..] + [rows[n]] == rows[k..];
    }
  }

  /** Nothing the journal once held is lost or altered. */
  predicate Extends(before: Tables, after: Tables) {
    && (forall t :: t in before.intents ==> t in after.intents && after.intents[t] == before.intents[t])
    && (forall t :: t in before.observations ==>
          t in after.observations && after.observations[t] == before.observations[t])
    && (forall t :: t in before.actions ==> t in after.actions && after.actions[t] == before.actions[t])
    && before.toolRows <= after.toolRows
    && (forall s :: s in before.budgets ==> s in after.budgets && after.budgets[s] == before.budgets[s])
  }

  class Journal {
    var db: Tables

    constructor ()
      ensures db == Tables(map[], map[], map[], [], map[])
    {
      db := Tables(map[], map[], map[], [], map[]);
    }

    /** Record an intent: a repeat is ignored, a different intent for the turn refused. */
    method AppendIntent(intent: Intent) returns (ok: bool)
      modifies this
      ensures ok <==> Lookup(old(db.intents), intent.turn) in {None, Some(intent)}
      ensures db == if ok then old(db).(intents := old(db.intents)[intent.turn := intent]) else old(db)
    {
      if intent.turn in db.intents && db.intents[intent.turn] != intent {
        return false;
      }
      if intent.turn !in db.intents {
        db := db.(intents := db.intents[intent.turn := intent]);
      }
      assert intent.turn in old(db.intents) ==>
        old(db.intents)[intent.turn := intent] == old(db.intents);
      return true;
    }

    /** Record an observation, once for each invocation; an unknown outcome must be classified. */
    method AppendObservation(observation: Observation) returns (ok: bool)
      modifies this
      ensures ok <==> !(observation.status == OutcomeUnknown
                        && (observation.classification == None || observation.classification == Some("")))
                      && Lookup(old(db.observations), observation.turn) in {None, Some(observation)}
      ensures db == if ok
                    then old(db).(observations := old(db.observations)[observation.turn := observation])
                    else old(db)
    {
      if !observation.Classified()
        || (observation.turn in db.observations && db.observations[observation.turn] != observation) {
        return false;
      }
      if observation.turn !in db.observations {
        db := db.(observations := db.observations[observation.turn := observation]);
      }
      assert observation.turn in old(db.observations) ==>
        old(db.observations)[observation.turn := observation] == old(db.observations);
      return true;
    }

    /** Record the action of a turn; a second action for the turn is ignored. */
    method AppendAction(action: Action)
      modifies this
      ensures db == if action.turn in old(db.actions) then old(db)
                    else old(db).(actions := old(db.actions)[action.turn := action])
    {
      if action.turn !in db.actions {
        db := db.(actions := db.actions[action.turn := action]);
      }
    }

    /** Record a tool result at the place of its sequence number; one whose identity or whose
        sequence number is taken is ignored. */
    method AppendToolResult(sequence: nat, result: ToolResult)
      modifies this
      ensures db == old(db).(toolRows := WithToolRow(old(db.toolRows), ToolRow(sequence, result)))
      ensures (exists row :: row in old(db.toolRows) && (row.sequence == sequence || row.result == result)) ==>
                db == old(db)
      ensures (forall row :: row in old(db.toolRows) ==> row.sequence != sequence && row.result != result) ==>
                exists k :: 0 <= k <= |old(db.toolRows)|
                            && PutAt(old(db.toolRows), ToolRow(sequence, result), db.toolRows, k)
    {
      ghost var k := InsertedInPlace(db.toolRows, ToolRow(sequence, result));
      db := db.(toolRows := WithToolRow(db.toolRows, ToolRow(sequence, result)));
    }

    /** Record a snapshot of the counters.  One over its reserved block is refused; one
        whose sequence number is taken is ignored. */
    method AppendBudget(sequence: nat, snapshot: Snapshot, reserved: Usage) returns (ok: bool)
      modifies this
      ensures ok <==> !OverSome(snapshot.used, reserved)
      ensures db == if ok && sequence !in old(db.budgets)
                    then old(db).(budgets := old(db.budgets)[sequence := snapshot]) else old(db)
    {
      if !snapshot.used.Within(reserved) {
        return false;
      }
      if sequence !in db.budgets {
        db := db.(budgets := db.budgets[sequence := snapshot]);
      }
      return true;
    }
  }

  // ---- The provider -----------------------------------------------------------------

  datatype ProviderStatus = Complete | Retryable | Unknown | MalformedOutput | Rejected

  /** A proposal as the runtime sees it: whether it normalises to an action, the evidence
      ids it cites, and its draft (Some(None) for a draft that cannot be rendered). */
  datatype Proposal = Proposal(wellFormed: bool, kind: ActionType, digest: Hash, reason: Option<string>,
                               references: seq<ToolResult>, draft: Option<Option<string>>)

  datatype TurnResultRecord = TurnResultRecord(status: ProviderStatus, usageAvailable: bool, usage: Tokens,
                                               latency: nat, retryable: bool,
                                               classification: Option<string>, proposal: Option<Proposal>)

  /** What a provider adapter may return: no usage unless it is reported, none at all for
      an unknown outcome. */
  type TurnResult = r: TurnResultRecord |
    (!r.usageAvailable ==> r.usage == Tokens(0, 0)) && (r.status.Unknown? ==> !r.usageAvailable)
    witness TurnResultRecord(Unknown, false, Tokens(0, 0), 0, false, None, None)

  /** A reply: a result, a breach of the provider boundary, or any other exception. */
  datatype Reply = Returned(result: TurnResult) | BoundaryError | Failed

  datatype Call = Call(turn: nat, reply: Reply)

  /** The provider, with the history of every contact ever made with it. */
  class Provider {
    ghost var calls: seq<Call>

    constructor ()
      ensures calls == []
    {
      calls := [];
    }

    /** Nothing is known of the reply. */
    method Propose(turn: nat) returns (reply: Reply)
      modifies this
      ensures calls == old(calls) + [Call(turn, reply)]
    {
      reply := *;
      calls := calls + [Call(turn, reply)];
    }
  }
}
