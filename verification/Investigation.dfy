/** The replay of a recorded investigation. */
module Investigation {
  import opened Common

  datatype Transcript = Transcript(actions: seq<ActionType>, required: seq<Tool>, actionBudget: int, toolBudget: int,
                                   noProgressLimit: int)

  datatype Outcome = LoadRefused | ActionBudgetExceeded | ToolBudgetExceeded | NoProgressLimit
                   | Ended(action: ActionType) | TerminalMissing

  const TOOL_ORDER: seq<Tool> := [Crm, Monitoring, Knowledge]

  /** A transcript that can be replayed: reads, every tool among them, and one terminal action,
      all within its budgets. */
  predicate Loadable(t: Transcript) {
    && t.noProgressLimit >= 1 && t.required == TOOL_ORDER
    && t.actions != [] && |t.actions| - 1 <= t.toolBudget && |t.actions| <= t.actionBudget
    && (forall i :: 0 <= i < |t.actions| ==> (t.actions[i].Read? <==> i < |t.actions| - 1))
    && forall tool: Tool :: Read(tool) in t.actions
  }

  function ToolsRead(actions: seq<ActionType>): seq<Tool> {
    (if Read(Crm) in actions then [Crm] else []) + (if Read(Monitoring) in actions then [Monitoring] else [])
    + (if Read(Knowledge) in actions then [Knowledge] else [])
  }

  /** The list of tools read, in their order, is complete exactly when each tool is read. */
  lemma AllToolsRead(actions: seq<ActionType>)
    ensures ToolsRead(actions) == TOOL_ORDER <==> forall tool: Tool :: Read(tool) in actions
  {
    if ToolsRead(actions) == TOOL_ORDER {
      assert |ToolsRead(actions)| == 3;
      forall tool: Tool
        ensures Read(tool) in actions
      {
        match tool
        case Crm =>
        case Monitoring =>
        case Knowledge =>
      }
    }
  }

  /** The checks of the loader on a transcript's budgets, actions and tools. */
  method LoadTranscript(t: Transcript) returns (valid: bool)
    ensures valid <==> Loadable(t)
  {
    hide ToolsRead;
    if t.actionBudget < 1 || t.toolBudget < 1 || t.noProgressLimit < 1 {
      assert Loadable(t) ==> Read(Crm) in t.actions;
      return false;
    }
    var actions := t.actions;
    if actions == [] || actions[|actions| - 1].Read? {
      return false;
    }
    for i := 0 to |actions| - 1
      invariant forall j :: 0 <= j < i ==> actions[j].Read?
    {
      if !actions[i].Read? {
        return false;
      }
    }
    if |actions| > t.actionBudget {
      return false;
    }
    AllToolsRead(actions);
    if t.required != [Crm, Monitoring, Knowledge] || ToolsRead(actions) != t.required {
      return false;
    }
    var toolCount := 0;
    for i := 0 to |actions|
      invariant toolCount == if i < |actions| then i else |actions| - 1
    {
      if actions[i].Read? {
        toolCount := toolCount + 1;
      }
    }
    return toolCount <= t.toolBudget;
  }

  /** The last `limit` actions up to a place are alike. */
  predicate StallsAt(actions: seq<ActionType>, limit: int, i: nat)
    requires i < |actions|
  {
    limit <= i + 1 && forall j :: i - limit < j <= i && 0 <= j ==> actions[j] == actions[i]
  }

  /** The contents read, in the order of the read actions. */
  function ContentsRead(actions: seq<ActionType>, contents: Tool -> Hash): seq<Hash> {
    if actions == [] then []
    else
      var last := actions[|actions| - 1];
      ContentsRead(actions[..|actions| - 1], contents) + if last.Read? then [contents(last.tool)] else []
  }

  lemma ReadsStep(actions: seq<ActionType>, i: nat, contents: Tool -> Hash)
    requires i < |actions|
    ensures ContentsRead(actions[..i + 1], contents)
            == ContentsRead(actions[..i], contents) + if actions[i].Read? then [contents(actions[i].tool)] else []
  {
    assert actions[..i + 1][..i] == actions[..i];
  }

  lemma NothingRead(contents: Tool -> Hash)
    ensures ContentsRead([], contents) == []
  {
  }

  /** The first n actions end in exactly k alike. */
  predicate Streak(actions: seq<ActionType>, n: int, k: int) {
    && 0 <= k <= n <= |actions| && (n > 0 ==> k > 0)
    && (forall j :: n - k <= j < n ==> actions[j] == actions[n - 1])
    && (0 < k < n ==> actions[n - k - 1] != actions[n - 1])
  }

  lemma EmptyStreak(actions: seq<ActionType>)
    ensures Streak(actions, 0, 0)
  {
  }

  lemma StreakStep(actions: seq<ActionType>, n: nat, k: int)
    requires n < |actions|
    requires n > 0 && actions[n] == actions[n - 1] ==> Streak(actions, n, k)
    requires !(n > 0 && actions[n] == actions[n - 1]) ==> k == 0
    ensures Streak(actions, n + 1, k + 1)
  {
  }

  lemma StreakDecides(actions: seq<ActionType>, i: nat, k: int, limit: int)
    requires i < |actions| && Streak(actions, i + 1, k) && limit >= 1
    ensures StallsAt(actions, limit, i) <==> k >= limit
  {
    if k < limit <= i + 1 {
      assert actions[i + 1 - k - 1] != actions[i];
    }
  }

  /** Replaying a transcript under the budgets that it carries.  Of one that the loader accepts the
      budget failures and the missing end cannot happen; the run stalls exactly where an action
      repeats up to the limit, and otherwise ends as recorded. */
  method RunReplay(t: Transcript, contents: Tool -> Hash)
    returns (out: Outcome, evidence: seq<Hash>, recorded: seq<ActionType>)
    ensures out.LoadRefused? <==> !Loadable(t)
    ensures !out.ActionBudgetExceeded? && !out.ToolBudgetExceeded? && !out.TerminalMissing?
    ensures out.NoProgressLimit?
            <==> Loadable(t) && exists i :: 0 <= i < |t.actions| && StallsAt(t.actions, t.noProgressLimit, i)
    ensures out.Ended? ==> out.action == t.actions[|t.actions| - 1] && recorded == t.actions
                           && evidence == ContentsRead(t.actions, contents)
    ensures out.NoProgressLimit? ==> |recorded| < |t.actions| && recorded == t.actions[..|recorded|]
                                     && StallsAt(t.actions, t.noProgressLimit, |recorded|)
    ensures out == Ended(ResponseCandidate) ==> forall tool: Tool :: Read(tool) in recorded
  {
    hide StallsAt, Streak, ContentsRead;
    NothingRead(contents);
    evidence, recorded := [], [];
    EmptyStreak(t.actions);
    var valid := LoadTranscript(t);
    if !valid {
      return LoadRefused, evidence, recorded;
    }
    var previous: Option<ActionType>, noProgress, actionCount, toolCount := None, 0, 0, 0;
    var actions := t.actions;
    for i := 0 to |actions|
      invariant actionCount == i && recorded == actions[..i] && toolCount == i
      invariant evidence == ContentsRead(actions[..i], contents)
      invariant previous == if i == 0 then None else Some(actions[i - 1])
      invariant Streak(actions, i, noProgress)
      invariant forall j :: 0 <= j < i ==> !StallsAt(actions, t.noProgressLimit, j)
      invariant forall j :: 0 <= j < i ==> actions[j].Read?
    {
      actionCount := actionCount + 1;
      if actionCount > t.actionBudget {
        return ActionBudgetExceeded, evidence, recorded;
      }
      var action := actions[i];
      if Some(action) == previous {
        noProgress := noProgress + 1;
      } else {
        noProgress := 1;
      }
      previous := Some(action);
      StreakStep(actions, i, if i > 0 && action == actions[i - 1] then noProgress - 1 else 0);
      StreakDecides(actions, i, noProgress, t.noProgressLimit);
      if noProgress >= t.noProgressLimit {
        return NoProgressLimit, evidence, recorded;
      }
      ReadsStep(actions, i, contents);
      recorded := recorded + [action];
      if action.Read? {
        toolCount := toolCount + 1;
        if toolCount > t.toolBudget {
          return ToolBudgetExceeded, evidence, recorded;
        }
        evidence := evidence + [contents(action.tool)];
        continue;
      }
      assert i == |actions| - 1 && actions[..i + 1] == actions;
      return Ended(action), evidence, recorded;
    }
    return TerminalMissing, evidence, recorded;
  }
}
