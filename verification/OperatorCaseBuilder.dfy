/** The builder of the operator case snapshot, from the records of a finished run. */
module OperatorCaseBuilder {
  import opened Common
  import opened CanonicalJson
  import opened OperatorCase

  /** A node of the evidence trajectory. */
  datatype Node = Node(kind: Kind, sourceId: Text, sha: Text, other: Members)

  datatype Checkpoint = Checkpoint(id: Text, state: Text)

  datatype Bundle = Bundle(nodes: seq<Node>, checkpoints: seq<Checkpoint>, revisionId: Text, checkpointId: Text,
                           reportSha: Text, root: Text, replayId: Text, replaySha: Text, replayReportSha: Text,
                           recordedRoot: Text, replayedRoot: Text, events: nat, revisions: nat, steps: nat,
                           toolResults: nat, ticketEffects: nat, other: Members)

  datatype BuildError = SourceInvalid | CheckpointDetached | SnapshotInvalid

  datatype Semantics = Semantics(observation: Observation, result: EntryResult, gate: Gate)

  function SemanticsOf(k: Kind): Semantics {
    match k
    case AcceptedIntake => Semantics(Accepted, RecordedResult, NotApplicable)
    case ResponseCandidate => Semantics(Proposed, RecordedResult, NotApplicable)
    case VerifierOutcome => Semantics(Verified, Passed, GatePassed)
    case CapabilityGrant | PolicyDecision | AuthorizationBinding => Semantics(Allowed, AllowedResult, GatePassed)
    case ApprovalDecision => Semantics(Approved, ApprovedResult, GatePassed)
    case DeliveryCompletion => Semantics(FixtureLocalRecorded, FixtureResult, NotApplicable)
    case ReplayResult => Semantics(Verified, VerifiedResult, GatePassed)
    case _ => Semantics(Recorded, RecordedResult, NotApplicable)
  }

  /** The part of a source id behind its first colon. */
  function AfterColon(t: Text): Option<Text> {
    if t == [] then None else if t[0] == COLON then Some(t[1..]) else AfterColon(t[1..])
  }

  /** The place of a checkpoint; of two with one id the later counts. */
  function PlaceOf(checkpoints: seq<Checkpoint>, id: Text): (place: Option<nat>)
    ensures place.Some? ==> place.value < |checkpoints| && checkpoints[place.value].id == id
    ensures place.None? <==> forall i :: 0 <= i < |checkpoints| ==> checkpoints[i].id != id
    ensures place.Some? ==> forall i :: place.value < i < |checkpoints| ==> checkpoints[i].id != id
  {
    if checkpoints == [] then None
    else if checkpoints[|checkpoints| - 1].id == id then Some(|checkpoints| - 1)
    else PlaceOf(checkpoints[..|checkpoints| - 1], id)
  }

  predicate Attached(checkpoints: seq<Checkpoint>, node: Node) {
    node.kind.WorkflowCheckpoint? ==>
      AfterColon(node.sourceId).Some? && PlaceOf(checkpoints, AfterColon(node.sourceId).value).Some?
  }

  /** The states before and after: of a checkpoint, those of the record; a delivery ends in its own. */
  function StatesOf(checkpoints: seq<Checkpoint>, node: Node): (Option<Text>, Option<Text>)
    requires Attached(checkpoints, node)
  {
    if node.kind.WorkflowCheckpoint? then
      var place := PlaceOf(checkpoints, AfterColon(node.sourceId).value).value;
      (if place == 0 then None else Some(checkpoints[place - 1].state), Some(checkpoints[place].state))
    else if node.kind.DeliveryCompletion? then (None, Some(Ascii7("DELIVERY_RECORDED")))
    else (None, None)
  }

  predicate AllAttached(b: Bundle) {
    forall i :: 0 <= i < |b.nodes| ==> Attached(b.checkpoints, b.nodes[i])
  }

  /** The nodes, and the replay as one more. */
  function AllNodes(b: Bundle): seq<Node> {
    b.nodes + [Node(ReplayResult, SourceOf(ReplayResult, b.replayId), b.replaySha, NoMembers)]
  }

  function EntryOf(checkpoints: seq<Checkpoint>, node: Node, sequence: nat, id: Text, predecessor: Option<Text>): Entry
    requires Attached(checkpoints, node)
  {
    var states, m := StatesOf(checkpoints, node), SemanticsOf(node.kind);
    Entry(sequence, id, predecessor, PhaseOf(node.kind), node.kind, node.sourceId, node.sha, states.0, states.1,
          m.observation, m.result, m.gate, NotRequired, node.other)
  }

  function NodeText(node: Node, sequence: nat): Text {
    Printed(StyleOf(PythonContract), EntryMaterial(PythonContract, sequence, node.kind, node.sourceId, node.sha))
  }

  function NodeId(w: World, node: Node, sequence: nat): Text {
    Ascii7("operator_entry_") + First32(w.sha(NodeText(node, sequence)))
  }

  /** The entry that the node at a place becomes. */
  function EntryAt(w: World, checkpoints: seq<Checkpoint>, nodes: seq<Node>, i: nat): Entry
    requires i < |nodes| && Attached(checkpoints, nodes[i])
  {
    EntryOf(checkpoints, nodes[i], i + 1, NodeId(w, nodes[i], i + 1),
            if i == 0 then None else Some(NodeId(w, nodes[i - 1], i)))
  }

  function BuiltTimeline(w: World, b: Bundle): (timeline: seq<Entry>)
    requires AllAttached(b)
    ensures timeline != []
  {
    var nodes := AllNodes(b);
    seq(|nodes|, i requires 0 <= i < |nodes| => EntryAt(w, b.checkpoints, nodes, i))
  }

  function BuiltCounts(b: Bundle): Counts {
    Counts(|b.nodes| + 1, b.events, b.revisions, |b.checkpoints|, b.steps, b.toolResults, b.ticketEffects,
           Count(NodeKinds(AllNodes(b)), DeliveryCompletion), |b.nodes|, 1)
  }

  function NodeKinds(nodes: seq<Node>): seq<Kind> {
    seq(|nodes|, i requires 0 <= i < |nodes| => nodes[i].kind)
  }

  function NodeSources(nodes: seq<Node>): seq<Text> {
    seq(|nodes|, i requires 0 <= i < |nodes| => nodes[i].sourceId)
  }

  function Assembled(w: World, b: Bundle, timeline: seq<Entry>, counts: Counts): Snapshot
    requires timeline != []
  {
    Addressed(PythonContract, w,
      Snapshot([], [], b.revisionId, b.checkpointId, b.reportSha, b.root, SourceHash(PythonContract, w, timeline),
               |b.nodes|, b.replayId, b.replaySha, b.replayReportSha, b.recordedRoot, b.replayedRoot, counts,
               timeline, b.other))
  }

  function Built(w: World, b: Bundle): Snapshot
    requires AllAttached(b)
  {
    Assembled(w, b, BuiltTimeline(w, b), BuiltCounts(b))
  }

  /** Build the snapshot and have the contract check it. */
  method Build(w: World, b: Bundle) returns (r: Checked<Snapshot, BuildError>)
    ensures b.nodes == [] ==> r == Refused(SourceInvalid)
    ensures b.nodes != [] && !AllAttached(b) ==> r == Refused(CheckpointDetached)
    ensures b.nodes != [] && AllAttached(b) ==>
              r == if PythonAccepts(w, Built(w, b)) then Ok(Built(w, b)) else Refused(SnapshotInvalid)
  {
    hide NodeId, SemanticsOf, StatesOf, PythonAccepts, Addressed, SourceHash;
    if b.nodes == [] {
      return Refused(SourceInvalid);
    }
    var timeline: seq<Entry> := [];
    for i := 0 to |b.nodes|
      invariant forall j :: 0 <= j < i ==> Attached(b.checkpoints, b.nodes[j])
      invariant |timeline| == i
      invariant forall j :: 0 <= j < i ==> timeline[j] == EntryAt(w, b.checkpoints, b.nodes, j)
    {
      var node := b.nodes[i];
      if !Attached(b.checkpoints, node) {
        return Refused(CheckpointDetached);
      }
      var sequence := |timeline| + 1;
      var predecessor := if timeline == [] then None else Some(timeline[|timeline| - 1].id);
      timeline := timeline + [EntryOf(b.checkpoints, node, sequence, NodeId(w, node, sequence), predecessor)];
    }
    var replay := Node(ReplayResult, SourceOf(ReplayResult, b.replayId), b.replaySha, NoMembers);
    ghost var front := timeline;
    timeline := timeline + [EntryOf(b.checkpoints, replay, |timeline| + 1, NodeId(w, replay, |timeline| + 1),
                                    Some(timeline[|timeline| - 1].id))];
    ghost var n, nodes := |b.nodes|, AllNodes(b);
    assert forall j :: 0 <= j < n ==> nodes[j] == b.nodes[j];
    forall j | 0 <= j <= n
      ensures timeline[j] == EntryAt(w, b.checkpoints, nodes, j)
    {
      if j < n {
        assert timeline[j] == front[j] == EntryAt(w, b.checkpoints, b.nodes, j);
      } else {
        assert front[n - 1] == EntryAt(w, b.checkpoints, b.nodes, n - 1);
      }
    }
    assert timeline == BuiltTimeline(w, b);
    assert Kinds(timeline) == NodeKinds(AllNodes(b));
    var counts := Counts(|timeline|, b.events, b.revisions, |b.checkpoints|, b.steps, b.toolResults, b.ticketEffects,
                         Count(Kinds(timeline), DeliveryCompletion), |b.nodes|, 1);
    var snapshot := Assembled(w, b, timeline, counts);
    var valid := PythonValidate(w, snapshot);
    if !valid {
      return Refused(SnapshotInvalid);
    }
    return Ok(snapshot);
  }

  // ---- What is recorded of states and gates --------------------------------------------------------------

  lemma {:induction false} ColonFound(name: Text, id: Text)
    requires forall i :: 0 <= i < |name| ==> name[i] != COLON
    ensures AfterColon(name + [COLON] + id) == Some(id)
  {
    var t := name + [COLON] + id;
    if name == [] {
      assert t == [COLON] + id;
    } else {
      ColonFound(name[1..], id);
      assert t[1..] == name[1..] + [COLON] + id;
    }
  }

  lemma CheckpointNamed(id: Text)
    ensures AfterColon(SourceOf(WorkflowCheckpoint, id)) == Some(id)
  {
    assert forall i :: 0 <= i < |"workflow_checkpoint"| ==> "workflow_checkpoint"[i] != ':';
    ColonFound(KindName(WorkflowCheckpoint), id);
  }

  /** The entry of a checkpoint goes from the state of the checkpoint before it to its own. */
  lemma CheckpointStates(w: World, b: Bundle, i: nat, p: nat)
    requires AllAttached(b) && i < |b.nodes| && p < |b.checkpoints|
    requires forall q :: p < q < |b.checkpoints| ==> b.checkpoints[q].id != b.checkpoints[p].id
    requires b.nodes[i].kind.WorkflowCheckpoint?
    requires b.nodes[i].sourceId == SourceOf(WorkflowCheckpoint, b.checkpoints[p].id)
    ensures var e := BuiltTimeline(w, b)[i];
            && e.fromState == (if p == 0 then None else Some(b.checkpoints[p - 1].state))
            && e.toState == Some(b.checkpoints[p].state)
  {
    hide NodeId, SemanticsOf, PhaseOf, SourceOf;
    CheckpointNamed(b.checkpoints[p].id);
    assert b.nodes[i] == AllNodes(b)[i];
  }

  /** The checkpoints' entries join: where one ends the next begins. */
  lemma StatesJoin(w: World, b: Bundle, i: nat, j: nat, p: nat)
    requires AllAttached(b) && i < |b.nodes| && j < |b.nodes| && p + 1 < |b.checkpoints|
    requires forall q, r :: 0 <= q < r < |b.checkpoints| ==> b.checkpoints[q].id != b.checkpoints[r].id
    requires b.nodes[i].kind.WorkflowCheckpoint? && b.nodes[j].kind.WorkflowCheckpoint?
    requires b.nodes[i].sourceId == SourceOf(WorkflowCheckpoint, b.checkpoints[p].id)
    requires b.nodes[j].sourceId == SourceOf(WorkflowCheckpoint, b.checkpoints[p + 1].id)
    ensures BuiltTimeline(w, b)[i].toState == BuiltTimeline(w, b)[j].fromState
  {
    hide BuiltTimeline, SourceOf, AllAttached;
    CheckpointStates(w, b, i, p);
    CheckpointStates(w, b, j, p + 1);
  }

  /** Of the other entries only the delivery has a state. */
  lemma OtherStates(w: World, b: Bundle, i: nat)
    requires AllAttached(b) && i <= |b.nodes| && !AllNodes(b)[i].kind.WorkflowCheckpoint?
    ensures var e := BuiltTimeline(w, b)[i];
            && e.fromState == None && (e.toState.Some? <==> AllNodes(b)[i].kind.DeliveryCompletion?)
            && (e.toState.Some? ==> e.toState.value == Ascii7("DELIVERY_RECORDED"))
  {
    hide NodeId, SemanticsOf, PhaseOf;
  }

  /** The builder passes the hard gates and the replay's, and no other; what it records of a kind
      is its success. */
  lemma GatesRecorded(k: Kind)
    ensures var m := SemanticsOf(k);
            && (m.gate.GatePassed? <==> HardGate(k) || k.ReplayResult?) && !m.gate.GateFailed?
            && (m.gate.GatePassed? <==> m.observation in {Verified, Allowed, Approved})
            && (m.gate.GatePassed? <==> m.result in {Passed, AllowedResult, ApprovedResult, VerifiedResult})
            && (m.observation == Accepted <==> k == AcceptedIntake)
            && (m.observation == Proposed <==> k == Kind.ResponseCandidate)
            && (m.observation == Verified <==> k in {VerifierOutcome, ReplayResult})
            && (m.observation == Allowed <==> k in {CapabilityGrant, PolicyDecision, AuthorizationBinding})
            && (m.observation == Approved <==> k == ApprovalDecision)
            && (m.observation == FixtureLocalRecorded <==> k == DeliveryCompletion)
            && m.observation !in {Denied, Stale, Timeout}
            && (m.result == Passed <==> k == VerifierOutcome) && (m.result == VerifiedResult <==> k == ReplayResult)
            && (m.result == AllowedResult <==> m.observation == Allowed)
            && (m.result == ApprovedResult <==> m.observation == Approved)
            && (m.result == FixtureResult <==> m.observation == FixtureLocalRecorded) && m.result != Blocked
  {
  }

  // ---- Which bundles are accepted -----------------------------------------------------------------------

  /** Source ids begin with the name of their kind. */
  predicate NamesFit(kinds: seq<Kind>, sources: seq<Text>)
    requires |kinds| == |sources|
  {
    forall i :: 0 <= i < |kinds| ==> Prefix(sources[i]) == KindName(kinds[i])
  }

  /** The condition on the source records. */
  predicate Good(b: Bundle) {
    var nodes := AllNodes(b);
    var kinds, sources := NodeKinds(nodes), NodeSources(nodes);
    && NamesFit(NodeKinds(b.nodes), NodeSources(b.nodes)) && InKindOrder(NodeKinds(b.nodes))
    && Distinct(sources) && (forall k: Kind :: k in kinds) && KindsOnce(kinds)
    && Count(kinds, ReplayResult) == 1
    && b.events == Count(kinds, AcceptedIntake) + Count(kinds, CaseEvent)
    && b.revisions == Count(kinds, CaseRevision) && |b.checkpoints| == Count(kinds, WorkflowCheckpoint)
    && b.steps == Count(kinds, AgentStep) && b.toolResults == Count(kinds, ToolResult)
    && SourceOf(CaseRevision, b.revisionId) in sources && SourceOf(WorkflowCheckpoint, b.checkpointId) in sources
    && b.reportSha == b.replayReportSha && b.root == b.recordedRoot && b.root == b.replayedRoot
  }

  /** The shortened digests of the entries' texts do not collide. */
  predicate NoCollision(w: World, b: Bundle) {
    var nodes := AllNodes(b);
    forall i, j :: 0 <= i < j < |nodes| ==>
      (NodeText(nodes[i], i + 1) != NodeText(nodes[j], j + 1) ==>
         First32(w.sha(NodeText(nodes[i], i + 1))) != First32(w.sha(NodeText(nodes[j], j + 1))))
  }

  lemma {:induction false} PrefixFound(name: Text, id: Text)
    requires forall i :: 0 <= i < |name| ==> name[i] != COLON
    ensures Prefix(name + [COLON] + id) == name
  {
    var t := name + [COLON] + id;
    if name == [] {
      assert t[0] == COLON;
    } else {
      PrefixFound(name[1..], id);
      assert t[1..] == name[1..] + [COLON] + id;
      assert [name[0]] + name[1..] == name;
    }
  }

  lemma ReplayNamed(id: Text)
    ensures Prefix(SourceOf(ReplayResult, id)) == KindName(ReplayResult)
  {
    assert forall i :: 0 <= i < |"replay_result"| ==> "replay_result"[i] != ':';
    PrefixFound(KindName(ReplayResult), id);
  }

  /** Chained, clean, in phase and identified: that much is true of whatever is built. */
  lemma BuiltInOrder(w: World, b: Bundle)
    requires AllAttached(b)
    ensures var t := BuiltTimeline(w, b);
            && Chained(t) && Identified(PythonContract, w, t)
            && Kinds(t) == NodeKinds(AllNodes(b)) && SourceIds(t) == NodeSources(AllNodes(b))
            && (forall i :: 0 <= i < |t| ==> Clean(t[i]))
  {
    hide StatesOf, PhaseOf, Rank, Ascii7, EntryMaterial, First32, KindName;
    var t := BuiltTimeline(w, b);
    forall i | 0 <= i < |t|
      ensures ChainedAt(t, i) && t[i].id == EntryId(PythonContract, w, t[i], i + 1) && Clean(t[i])
    {
      assert t[i] == EntryAt(w, b.checkpoints, AllNodes(b), i);
      if i > 0 {
        assert t[i - 1] == EntryAt(w, b.checkpoints, AllNodes(b), i - 1);
      }
    }
  }

  lemma BuiltIdsDiffer(w: World, b: Bundle)
    requires AllAttached(b) && NoCollision(w, b)
    ensures Distinct(Ids(BuiltTimeline(w, b)))
  {
    hide StatesOf, PhaseOf, Rank, Ascii7, EntryMaterial, First32, KindName, Printed, SemanticsOf;
    var t, nodes := BuiltTimeline(w, b), AllNodes(b);
    forall i, j | 0 <= i < j < |t|
      ensures t[i].id != t[j].id
    {
      var x, y := First32(w.sha(NodeText(nodes[i], i + 1))), First32(w.sha(NodeText(nodes[j], j + 1)));
      EntryTextDecides(PythonContract, t[i], i + 1, t[j], j + 1);
      var prefix := Ascii7("operator_entry_");
      assert t[i].id == prefix + x && t[j].id == prefix + y;
      assert (prefix + x)[|prefix|..] == x && (prefix + y)[|prefix|..] == y;
    }
  }

  /** Each gate kind once is each gate passed once: the builder sets what is observed. */
  lemma BuiltGates(w: World, b: Bundle, k: Kind)
    requires AllAttached(b)
    ensures var t, o := BuiltTimeline(w, b), SemanticsOf(k).observation;
            Matching(t, k, o) == Count(Kinds(t), k)
  {
    var t := BuiltTimeline(w, b);
    hide StatesOf, PhaseOf, NodeId, Count, Matching;
    assert forall i :: 0 <= i < |t| ==> t[i].kind == k ==> t[i].observation == SemanticsOf(k).observation;
    AllMatch(t, k, SemanticsOf(k).observation);
  }

  lemma {:induction false} AllMatch(t: seq<Entry>, k: Kind, o: Observation)
    requires forall i :: 0 <= i < |t| && t[i].kind == k ==> t[i].observation == o
    ensures Matching(t, k, o) == Count(Kinds(t), k)
  {
    if t != [] {
      var n := |t| - 1;
      AllMatch(t[..n], k, o);
      FilterStep(t, k, o);
      CountAppended(Kinds(t[..n]), t[n].kind, k);
      assert Kinds(t) == Kinds(t[..n]) + [t[n].kind];
      hide Count, Kinds, Matching;
    }
  }

  lemma BuiltPhases(w: World, b: Bundle)
    requires AllAttached(b)
    ensures Phased(BuiltTimeline(w, b)) <==> InKindOrder(NodeKinds(b.nodes))
  {
    hide StatesOf, NodeId, SemanticsOf, PhaseOf;
    var t := BuiltTimeline(w, b);
    assert forall i :: 0 <= i < |t| ==> t[i].kind == AllNodes(b)[i].kind && t[i].phase == PhaseOf(t[i].kind);
    PhasesOrderKinds(t);
    assert Kinds(t) == NodeKinds(b.nodes) + [ReplayResult];
    ReplayAscends(NodeKinds(b.nodes));
  }

  lemma ReplayAscends(kinds: seq<Kind>)
    ensures InKindOrder(kinds + [ReplayResult]) <==> InKindOrder(kinds)
  {
    hide Rank, PhaseOf;
    var all := kinds + [ReplayResult];
    assert forall i :: 0 <= i < |kinds| ==> all[i] == kinds[i];
    PlaceOfKind(ReplayResult);
    assert ReplayResult in KIND_ORDER[9];
  }

  lemma BuiltNames(w: World, b: Bundle)
    requires AllAttached(b)
    requires forall i :: 0 <= i < |BuiltTimeline(w, b)| ==> Clean(BuiltTimeline(w, b)[i])
    ensures AllClean(BuiltTimeline(w, b)) <==> NamesFit(NodeKinds(b.nodes), NodeSources(b.nodes))
  {
    hide StatesOf, NodeId, SemanticsOf, PhaseOf, Clean, KindName, Prefix, SourceOf;
    var t, nodes := BuiltTimeline(w, b), AllNodes(b);
    ReplayNamed(b.replayId);
    assert forall i :: 0 <= i < |t| ==> t[i].sourceId == nodes[i].sourceId && t[i].kind == nodes[i].kind;
    assert forall i :: 0 <= i < |b.nodes| ==> nodes[i] == b.nodes[i];
    if NamesFit(NodeKinds(b.nodes), NodeSources(b.nodes)) {
      forall i | 0 <= i < |t|
        ensures NamedByKind(t[i])
      {
        if i < |b.nodes| {
          assert NodeKinds(b.nodes)[i] == t[i].kind && NodeSources(b.nodes)[i] == t[i].sourceId;
        }
      }
    }
    if AllClean(t) {
      forall i | 0 <= i < |b.nodes|
        ensures Prefix(NodeSources(b.nodes)[i]) == KindName(NodeKinds(b.nodes)[i])
      {
        assert NamedByKind(t[i]);
      }
    }
  }

  lemma BuiltCovers(b: Bundle)
    ensures Covers(NodeKinds(AllNodes(b))) <==> forall k: Kind :: k in NodeKinds(AllNodes(b))
  {
  }

  lemma BuiltCountsFit(b: Bundle)
    ensures var kinds := NodeKinds(AllNodes(b));
            Counted(BuiltCounts(b), kinds)
            <==> Count(kinds, ReplayResult) == 1
                 && b.events == Count(kinds, AcceptedIntake) + Count(kinds, CaseEvent)
                 && b.revisions == Count(kinds, CaseRevision) && |b.checkpoints| == Count(kinds, WorkflowCheckpoint)
                 && b.steps == Count(kinds, AgentStep) && b.toolResults == Count(kinds, ToolResult)
  {
    hide Count;
  }

  lemma BuiltLinks(w: World, b: Bundle)
    requires AllAttached(b) && SourceIds(BuiltTimeline(w, b)) == NodeSources(AllNodes(b))
    ensures var sources := NodeSources(AllNodes(b));
            Linked(Built(w, b))
            <==> SourceOf(CaseRevision, b.revisionId) in sources
                 && SourceOf(WorkflowCheckpoint, b.checkpointId) in sources
  {
    hide StatesOf, NodeId, SemanticsOf, PhaseOf, SourceOf, SourceHash, SnapshotHash;
    assert BuiltTimeline(w, b)[|b.nodes|].sourceSha == b.replaySha;
  }

  /** What is built from a bundle passes the contract exactly when the bundle is good. */
  lemma BuilderDecides(w: World, b: Bundle)
    requires b.nodes != [] && AllAttached(b) && NoCollision(w, b)
    ensures PythonAccepts(w, Built(w, b)) <==> Good(b)
  {
    hide StatesOf, NodeId, PhaseOf, SourceOf, SourceHash, SnapshotHash, SnapshotText, EntryAt, Chained, Phased,
         AllClean, Identified, Distinct, Count, Matching, NoCollision, AllAttached, Ids, SourceIds, Kinds,
         NodeKinds, NodeSources, Covers, Counted, BuiltCounts, Linked, NamesFit, InKindOrder, BuiltTimeline;
    BuiltInOrder(w, b);
    BuiltIdsDiffer(w, b);
    BuiltGates(w, b, VerifierOutcome);
    BuiltGates(w, b, PolicyDecision);
    BuiltGates(w, b, ApprovalDecision);
    BuiltGates(w, b, DeliveryCompletion);
    BuiltPhases(w, b);
    BuiltNames(w, b);
    BuiltCovers(b);
    BuiltCountsFit(b);
    BuiltLinks(w, b);
    BuiltDigested(w, b);
  }

  /** Finishing a snapshot makes its addresses right: they do not enter their own digest. */
  lemma BuiltDigested(w: World, b: Bundle)
    requires AllAttached(b) && Identified(PythonContract, w, BuiltTimeline(w, b))
    ensures Digested(PythonContract, w, Built(w, b))
    ensures Built(w, b).timeline == BuiltTimeline(w, b) && Built(w, b).counts == BuiltCounts(b)
  {
    hide BuiltTimeline, Identified, SourceHash;
    var s := Built(w, b);
    var bare := s.(id := [], sha := []);
    assert s == Addressed(PythonContract, w, bare);
  }

  /** A good bundle in ASCII is accepted by all: by both contracts, and by the console exactly
      if its numbers are the pinned ones. */
  lemma GoodBundlesPass(w: World, b: Bundle)
    requires b.nodes != [] && AllAttached(b) && NoCollision(w, b) && Good(b)
    requires AsciiThroughout(w, Built(w, b))
    ensures PythonAccepts(w, Built(w, b)) && ContractAccepts(w, Built(w, b))
    ensures ConsoleAccepts(w, Built(w, b)) <==> Pinned(Built(w, b))
  {
    hide Good, Pinned, PythonAccepts, ContractAccepts, AsciiThroughout, NoCollision, AllAttached;
    BuilderDecides(w, b);
    PythonIsStricter(w, Built(w, b));
  }
}
