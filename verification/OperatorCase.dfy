/** The operator case snapshot: the three validators written for it, and the builder.

    Checks of types, patterns and closed vocabularies are taken as passed: the fields here
    are typed.  A validator's verdict is modelled, not the reason it names. */
module OperatorCase {
  import opened Common
  import opened CanonicalJson

  datatype Phase = Intake | CasePhase | WorkflowPhase | Investigation | Tools | Verification | Policy
                 | Approval | Delivery | Replay

  datatype Kind =
    | AcceptedIntake | CaseRevision | CaseEvent | WorkflowActivation | WorkflowCheckpoint | ContextManifest
    | AgentStep | ToolRequest | ToolResult | EvidenceNode | ResponseCandidate | VerifierOutcome
    | PolicyActivation | CapabilityGrant | PolicyDecision | AuthorizationBinding | ApprovalRequest
    | ApprovalDecision | DeliveryIntent | DeliveryCompletion | ReplayResult

  datatype Observation = Accepted | Recorded | Proposed | Verified | Allowed | Approved
                       | FixtureLocalRecorded | Denied | Stale | Timeout | Recovered

  datatype EntryResult = RecordedResult | Passed | AllowedResult | ApprovedResult | FixtureResult
                       | VerifiedResult | Blocked

  datatype Gate = NotApplicable | GatePassed | GateFailed

  datatype Recovery = NotRequired | Reconciled | RecoveredLater | RecoveryBlocked

  /** `other` stands for the fields that no check reads. */
  datatype Entry = Entry(sequence: nat, id: Text, predecessor: Option<Text>, phase: Phase, kind: Kind,
                         sourceId: Text, sourceSha: Text, fromState: Option<Text>, toState: Option<Text>,
                         observation: Observation, result: EntryResult, gate: Gate, recovery: Recovery,
                         other: Members)

  datatype Counts = Counts(entries: int, events: int, revisions: int, checkpoints: int, steps: int,
                           toolResults: int, ticketEffects: int, deliveryEffects: int, nodes: int, replays: int)

  datatype Snapshot = Snapshot(id: Text, sha: Text, revisionId: Text, checkpointId: Text, reportSha: Text,
                               root: Text, timelineSourceSha: Text, nodeCount: int, replayId: Text,
                               replaySha: Text, replayReportSha: Text, recordedRoot: Text, replayedRoot: Text,
                               counts: Counts, timeline: seq<Entry>, other: Members)

  /** SHA-256 in hexadecimal, and the JSON object that carries a snapshot, its two content
      addresses left out.  Nothing is assumed about either. */
  datatype World = World(sha: Text -> Text, encode: Snapshot -> Json)

  // ---- Vocabulary ---------------------------------------------------------------------------------

  function Ascii7(s: string): Text {
    seq(|s|, i requires 0 <= i < |s| => if s[i] < '\U{7F}' then s[i] as int else 63)
  }

  function KindName(k: Kind): Text {
    Ascii7(match k
           case AcceptedIntake => "accepted_intake"
           case CaseRevision => "case_revision"
           case CaseEvent => "case_event"
           case WorkflowActivation => "workflow_activation"
           case WorkflowCheckpoint => "workflow_checkpoint"
           case ContextManifest => "context_manifest"
           case AgentStep => "agent_step"
           case ToolRequest => "tool_request"
           case ToolResult => "tool_result"
           case EvidenceNode => "evidence"
           case ResponseCandidate => "response_candidate"
           case VerifierOutcome => "verifier_outcome"
           case PolicyActivation => "policy_activation"
           case CapabilityGrant => "capability_grant"
           case PolicyDecision => "policy_decision"
           case AuthorizationBinding => "authorization_binding"
           case ApprovalRequest => "approval_request"
           case ApprovalDecision => "approval_decision"
           case DeliveryIntent => "delivery_intent"
           case DeliveryCompletion => "delivery_completion"
           case ReplayResult => "replay_result")
  }

  function PhaseOf(k: Kind): Phase {
    match k
    case AcceptedIntake => Intake
    case CaseRevision | CaseEvent => CasePhase
    case WorkflowActivation | WorkflowCheckpoint => WorkflowPhase
    case ContextManifest | AgentStep => Investigation
    case ToolRequest | ToolResult | EvidenceNode => Tools
    case ResponseCandidate | VerifierOutcome => Verification
    case PolicyActivation | CapabilityGrant | PolicyDecision | AuthorizationBinding => Policy
    case ApprovalRequest | ApprovalDecision => Approval
    case DeliveryIntent | DeliveryCompletion => Delivery
    case ReplayResult => Replay
  }

  function Rank(p: Phase): nat {
    match p
    case Intake => 0 case CasePhase => 1 case WorkflowPhase => 2 case Investigation => 3 case Tools => 4
    case Verification => 5 case Policy => 6 case Approval => 7 case Delivery => 8 case Replay => 9
  }

  predicate HardGate(k: Kind) {
    k.VerifierOutcome? || k.CapabilityGrant? || k.PolicyDecision? || k.AuthorizationBinding? || k.ApprovalDecision?
  }

  /** The part of a source id before its first colon. */
  function Prefix(t: Text): Text {
    if t == [] || t[0] == COLON then [] else [t[0]] + Prefix(t[1..])
  }

  function SourceOf(k: Kind, id: Text): Text {
    KindName(k) + [COLON] + id
  }

  // ---- Content addresses ----------------------------------------------------------------------------

  function First32(t: Text): Text {
    if |t| >= 32 then t[..32] else t
  }

  function Field(name: string, value: Json, rest: Members): Members {
    Member(Ascii7(name), value, rest)
  }

  /** The programs that digest a snapshot, each listing fields in its own order. */
  datatype Program = Contract | Console | PythonContract

  function StyleOf(who: Program): Style {
    if who.PythonContract? then Python else TypeScript
  }

  /** What an entry id is the digest of. */
  function EntryMaterial(who: Program, sequence: int, kind: Kind, sourceId: Text, sourceSha: Text): Json {
    if who.PythonContract? then
      Obj(Field("sequence", Num(sequence), Field("source_kind", Str(KindName(kind)),
          Field("source_id", Str(sourceId), Field("source_sha256", Str(sourceSha), NoMembers)))))
    else
      Obj(Field("sequence", Num(sequence), Field("source_id", Str(sourceId),
          Field("source_kind", Str(KindName(kind)), Field("source_sha256", Str(sourceSha), NoMembers)))))
  }

  function EntryText(who: Program, e: Entry, sequence: nat): Text {
    Printed(StyleOf(who), EntryMaterial(who, sequence, e.kind, e.sourceId, e.sourceSha))
  }

  function EntryId(who: Program, w: World, e: Entry, sequence: nat): Text {
    Ascii7("operator_entry_") + First32(w.sha(EntryText(who, e, sequence)))
  }

  function SourceItem(who: Program, e: Entry): Json {
    if who.Contract? then
      Obj(Field("source_id", Str(e.sourceId), Field("source_kind", Str(KindName(e.kind)),
          Field("source_sha256", Str(e.sourceSha), NoMembers))))
    else
      Obj(Field("source_kind", Str(KindName(e.kind)), Field("source_id", Str(e.sourceId),
          Field("source_sha256", Str(e.sourceSha), NoMembers))))
  }

  function SourceItems(who: Program, entries: seq<Entry>): Items {
    if entries == [] then NoItems else Item(SourceItem(who, entries[0]), SourceItems(who, entries[1..]))
  }

  /** All entries but the last, which is the replay's own. */
  function SourceMaterial(who: Program, timeline: seq<Entry>): Json
    requires timeline != []
  {
    Arr(SourceItems(who, timeline[..|timeline| - 1]))
  }

  function SourceText(who: Program, timeline: seq<Entry>): Text
    requires timeline != []
  {
    Printed(StyleOf(who), SourceMaterial(who, timeline))
  }

  function SourceHash(who: Program, w: World, timeline: seq<Entry>): Text
    requires timeline != []
  {
    w.sha(SourceText(who, timeline))
  }

  function SnapshotText(who: Program, w: World, s: Snapshot): Text {
    Printed(StyleOf(who), w.encode(s.(id := [], sha := [])))
  }

  function SnapshotHash(who: Program, w: World, s: Snapshot): Text {
    w.sha(SnapshotText(who, w, s))
  }

  function Addressed(who: Program, w: World, s: Snapshot): Snapshot {
    var hash := SnapshotHash(who, w, s);
    s.(id := Ascii7("operator_case_snapshot_") + hash, sha := hash)
  }

  predicate WellAddressed(who: Program, w: World, s: Snapshot) {
    s.sha == SnapshotHash(who, w, s)
    && s.id == Ascii7("operator_case_snapshot_") + SnapshotHash(who, w, s)
  }

  // ---- What an accepted timeline is --------------------------------------------------------------------

  predicate Chained(timeline: seq<Entry>) {
    forall i :: 0 <= i < |timeline| ==> ChainedAt(timeline, i)
  }

  predicate ChainedAt(timeline: seq<Entry>, i: nat)
    requires i < |timeline|
  {
    timeline[i].sequence == i + 1
    && timeline[i].predecessor == if i == 0 then None else Some(timeline[i - 1].id)
  }

  /** No entry is of an earlier phase than any before it. */
  predicate Phased(timeline: seq<Entry>) {
    && (forall i :: 0 <= i < |timeline| ==> timeline[i].phase == PhaseOf(timeline[i].kind))
    && (forall i, j :: 0 <= i < j < |timeline| ==> Rank(timeline[i].phase) <= Rank(timeline[j].phase))
  }

  predicate Clean(e: Entry) {
    && (HardGate(e.kind) ==> e.gate.GatePassed?) && !e.gate.GateFailed? && !e.result.Blocked?
    && !e.observation.Denied? && !e.observation.Stale? && !e.observation.Timeout?
    && e.recovery.NotRequired?
  }

  predicate NamedByKind(e: Entry) {
    Prefix(e.sourceId) == KindName(e.kind)
  }

  predicate AllClean(timeline: seq<Entry>) {
    forall i :: 0 <= i < |timeline| ==> Clean(timeline[i]) && NamedByKind(timeline[i])
  }

  predicate Identified(who: Program, w: World, timeline: seq<Entry>) {
    forall i :: 0 <= i < |timeline| ==> timeline[i].id == EntryId(who, w, timeline[i], i + 1)
  }

  function Ids(timeline: seq<Entry>): seq<Text> {
    seq(|timeline|, i requires 0 <= i < |timeline| => timeline[i].id)
  }

  function SourceIds(timeline: seq<Entry>): seq<Text> {
    seq(|timeline|, i requires 0 <= i < |timeline| => timeline[i].sourceId)
  }

  function Kinds(timeline: seq<Entry>): seq<Kind> {
    seq(|timeline|, i requires 0 <= i < |timeline| => timeline[i].kind)
  }

  /** Every kind of source occurs, and the replay comes last. */
  predicate Covers(kinds: seq<Kind>) {
    kinds != [] && kinds[|kinds| - 1].ReplayResult? && forall k: Kind :: k in kinds
  }

  function Count(kinds: seq<Kind>, k: Kind): nat {
    multiset(kinds)[k]
  }

  predicate Counted(c: Counts, kinds: seq<Kind>) {
    && c.entries == |kinds| && c.events == Count(kinds, AcceptedIntake) + Count(kinds, CaseEvent)
    && c.revisions == Count(kinds, CaseRevision) && c.checkpoints == Count(kinds, WorkflowCheckpoint)
    && c.steps == Count(kinds, AgentStep) && c.toolResults == Count(kinds, ToolResult)
    && c.deliveryEffects == Count(kinds, DeliveryCompletion) && c.nodes == |kinds| - 1
    && c.replays == Count(kinds, ReplayResult)
  }

  predicate Linked(s: Snapshot)
    requires s.timeline != []
  {
    var ids := SourceIds(s.timeline);
    && SourceOf(CaseRevision, s.revisionId) in ids && SourceOf(WorkflowCheckpoint, s.checkpointId) in ids
    && ids[|ids| - 1] == SourceOf(ReplayResult, s.replayId)
    && s.timeline[|ids| - 1].sourceSha == s.replaySha
  }

  predicate RootsAgree(s: Snapshot) {
    s.reportSha == s.replayReportSha && s.root == s.recordedRoot && s.root == s.replayedRoot
  }

  predicate Matches(e: Entry, k: Kind, o: Observation) {
    e.kind == k && e.observation == o
  }

  /** How many entries are of this kind with this observation. */
  function Matching(timeline: seq<Entry>, k: Kind, o: Observation): nat {
    if timeline == [] then 0
    else Matching(timeline[..|timeline| - 1], k, o)
         + if Matches(timeline[|timeline| - 1], k, o) then 1 else 0
  }

  predicate GatesOnce(timeline: seq<Entry>) {
    && Matching(timeline, VerifierOutcome, Verified) == 1 && Matching(timeline, PolicyDecision, Allowed) == 1
    && Matching(timeline, ApprovalDecision, Approved) == 1
    && Matching(timeline, DeliveryCompletion, FixtureLocalRecorded) == 1
  }

  predicate KindsOnce(kinds: seq<Kind>) {
    && Count(kinds, VerifierOutcome) == 1 && Count(kinds, PolicyDecision) == 1
    && Count(kinds, ApprovalDecision) == 1 && Count(kinds, DeliveryCompletion) == 1
  }

  /** What all three validators ask, but for the digests. */
  predicate SoundTimeline(s: Snapshot) {
    && s.timeline != [] && Chained(s.timeline) && Phased(s.timeline) && AllClean(s.timeline)
    && Distinct(Ids(s.timeline)) && Distinct(SourceIds(s.timeline)) && Covers(Kinds(s.timeline))
    && Counted(s.counts, Kinds(s.timeline)) && Linked(s) && RootsAgree(s) && GatesOnce(s.timeline)
  }

  predicate Digested(who: Program, w: World, s: Snapshot)
    requires s.timeline != []
  {
    && WellAddressed(who, w, s) && Identified(who, w, s.timeline)
    && s.timelineSourceSha == SourceHash(who, w, s.timeline)
  }

  /** The TypeScript contract. */
  predicate ContractAccepts(w: World, s: Snapshot) {
    SoundTimeline(s) && Digested(Contract, w, s)
  }

  /** The numbers and lengths that the console fixes. */
  predicate Pinned(s: Snapshot) {
    && 2 <= |s.timeline| <= 128 && 1 <= s.nodeCount <= 127
    && s.counts.revisions == 1 && s.counts.ticketEffects == 2 && s.counts.deliveryEffects == 1
    && s.counts.replays == 1
  }

  /** The console accepts what the contract does, with the numbers it fixes. */
  predicate ConsoleAccepts(w: World, s: Snapshot) {
    ContractAccepts(w, s) && Pinned(s)
  }

  /** The Python contract. */
  predicate PythonAccepts(w: World, s: Snapshot) {
    SoundTimeline(s) && KindsOnce(Kinds(s.timeline)) && Digested(PythonContract, w, s)
  }

  // ---- What an accepted timeline tells ------------------------------------------------------------------

  /** The kinds of source, grouped in the order in which they must come. */
  const KIND_ORDER: seq<set<Kind>> := [
    {AcceptedIntake}, {CaseRevision, CaseEvent}, {WorkflowActivation, WorkflowCheckpoint},
    {ContextManifest, AgentStep}, {ToolRequest, ToolResult, EvidenceNode},
    {Kind.ResponseCandidate, VerifierOutcome},
    {PolicyActivation, CapabilityGrant, PolicyDecision, AuthorizationBinding},
    {ApprovalRequest, ApprovalDecision}, {DeliveryIntent, DeliveryCompletion}, {ReplayResult}]

  lemma PlaceOfKind(k: Kind)
    ensures |KIND_ORDER| == 10 && Rank(PhaseOf(k)) < 10
    ensures forall a :: 0 <= a < 10 ==> (k in KIND_ORDER[a] <==> a == Rank(PhaseOf(k)))
  {
  }

  /** No kind of a later group comes before one of an earlier group. */
  predicate InKindOrder(kinds: seq<Kind>) {
    forall i, j :: 0 <= i < j < |kinds| ==>
      forall a, b :: 0 <= a < |KIND_ORDER| && 0 <= b < |KIND_ORDER| ==>
        (kinds[i] in KIND_ORDER[a] && kinds[j] in KIND_ORDER[b] ==> a <= b)
  }

  /** The phases are in order exactly when the kinds are. */
  lemma PhasesOrderKinds(timeline: seq<Entry>)
    requires forall i :: 0 <= i < |timeline| ==> timeline[i].phase == PhaseOf(timeline[i].kind)
    ensures Phased(timeline) <==> InKindOrder(Kinds(timeline))
  {
    hide Rank, PhaseOf;
    var kinds := Kinds(timeline);
    forall k: Kind
      ensures |KIND_ORDER| == 10 && 0 <= Rank(PhaseOf(k)) < 10 && k in KIND_ORDER[Rank(PhaseOf(k))]
    {
      PlaceOfKind(k);
    }
    if Phased(timeline) {
      forall i, j, a, b | 0 <= i < j < |kinds| && 0 <= a < 10 && 0 <= b < 10
                          && kinds[i] in KIND_ORDER[a] && kinds[j] in KIND_ORDER[b]
        ensures a <= b
      {
        PlaceOfKind(kinds[i]);
        PlaceOfKind(kinds[j]);
        assert Rank(timeline[i].phase) <= Rank(timeline[j].phase);
      }
    }
    if InKindOrder(kinds) {
      forall i, j | 0 <= i < j < |timeline|
        ensures Rank(timeline[i].phase) <= Rank(timeline[j].phase)
      {
        assert kinds[i] in KIND_ORDER[Rank(PhaseOf(kinds[i]))] && kinds[j] in KIND_ORDER[Rank(PhaseOf(kinds[j]))];
      }
    }
  }

  /** What is counted once has one place. */
  lemma {:induction false} MatchingOnce(timeline: seq<Entry>, k: Kind, o: Observation) returns (i: nat)
    requires Matching(timeline, k, o) == 1
    ensures i < |timeline| && forall j :: 0 <= j < |timeline| ==> (Matches(timeline[j], k, o) <==> j == i)
  {
    hide Matches;
    var n := |timeline| - 1;
    var front := timeline[..n];
    if Matches(timeline[n], k, o) {
      i := n;
      NoneMatching(front, k, o);
    } else {
      i := MatchingOnce(front, k, o);
    }
    forall j | 0 <= j < n
      ensures Matches(timeline[j], k, o) <==> j == i
    {
      assert front[j] == timeline[j];
    }
  }

  lemma {:induction false} NoneMatching(timeline: seq<Entry>, k: Kind, o: Observation)
    requires Matching(timeline, k, o) == 0
    ensures forall j :: 0 <= j < |timeline| ==> !Matches(timeline[j], k, o)
  {
    hide Matches;
    if timeline != [] {
      var n := |timeline| - 1;
      NoneMatching(timeline[..n], k, o);
      assert forall j :: 0 <= j < n ==> timeline[..n][j] == timeline[j];
    }
  }

  /** Of an accepted timeline every gate is passed, also those that may occur more often. */
  lemma GatesPassed(s: Snapshot, i: nat)
    requires SoundTimeline(s) && i < |s.timeline|
    requires s.timeline[i].kind in
               {VerifierOutcome, CapabilityGrant, PolicyDecision, AuthorizationBinding, ApprovalDecision}
    ensures s.timeline[i].gate == GatePassed && s.timeline[i].result != Blocked
    ensures s.timeline[i].observation !in {Denied, Stale, Timeout}
  {
    hide Matching, Covers, Counted, Linked, Distinct, Chained, Phased, NamedByKind;
    assert Clean(s.timeline[i]);
  }

  lemma LaterPhase(timeline: seq<Entry>, i: nat, j: nat)
    requires Phased(timeline) && i < |timeline| && j < |timeline|
    requires Rank(PhaseOf(timeline[i].kind)) < Rank(PhaseOf(timeline[j].kind))
    ensures i < j
  {
    hide Rank, PhaseOf;
  }

  /** Nothing is delivered without its gates: an accepted timeline has one verified outcome,
      behind it one policy decision that allows, and behind that one approval, each with its
      gate passed; and whatever is delivered comes behind all three. */
  lemma DeliveryIsGated(s: Snapshot) returns (verified: nat, allowed: nat, approved: nat, delivered: nat)
    requires SoundTimeline(s)
    ensures verified < allowed < approved < delivered < |s.timeline|
    ensures forall i :: 0 <= i < |s.timeline| ==>
              var e := s.timeline[i];
              && (Matches(e, VerifierOutcome, Verified) <==> i == verified)
              && (Matches(e, PolicyDecision, Allowed) <==> i == allowed)
              && (Matches(e, ApprovalDecision, Approved) <==> i == approved)
              && (Matches(e, DeliveryCompletion, FixtureLocalRecorded) <==> i == delivered)
              && (e.kind == DeliveryIntent || e.kind == DeliveryCompletion ==> i > approved)
    ensures forall i :: i in {verified, allowed, approved} ==> s.timeline[i].gate == GatePassed
  {
    hide Matching, Covers, Counted, Linked, Distinct, Chained, Phased, AllClean, RootsAgree;
    verified := MatchingOnce(s.timeline, VerifierOutcome, Verified);
    allowed := MatchingOnce(s.timeline, PolicyDecision, Allowed);
    approved := MatchingOnce(s.timeline, ApprovalDecision, Approved);
    delivered := MatchingOnce(s.timeline, DeliveryCompletion, FixtureLocalRecorded);
    LaterPhase(s.timeline, verified, allowed);
    LaterPhase(s.timeline, allowed, approved);
    LaterPhase(s.timeline, approved, delivered);
    forall i | 0 <= i < |s.timeline| && s.timeline[i].kind in {DeliveryIntent, DeliveryCompletion}
      ensures i > approved
    {
      LaterPhase(s.timeline, approved, i);
    }
    GatesPassed(s, verified);
    GatesPassed(s, allowed);
    GatesPassed(s, approved);
  }

  // ---- The programs digest the same things ---------------------------------------------------------------

  lemma DifferentNames()
    ensures Ascii7("source_id") != Ascii7("source_kind") && Ascii7("source_kind") != Ascii7("source_sha256")
    ensures Ascii7("source_id") != Ascii7("source_sha256")
    ensures Ascii7("sequence") !in {Ascii7("source_id"), Ascii7("source_kind"), Ascii7("source_sha256")}
  {
    assert Ascii7("source_id")[7] != Ascii7("source_kind")[7];
    assert Ascii7("source_kind")[7] != Ascii7("source_sha256")[7];
    assert Ascii7("source_sha256")[7] != Ascii7("source_id")[7];
    assert Ascii7("sequence")[1] != Ascii7("source_id")[1];
    assert Ascii7("sequence")[1] != Ascii7("source_kind")[1];
    assert Ascii7("sequence")[1] != Ascii7("source_sha256")[1];
  }

  /** Two neighbouring members of different names may change places. */
  lemma SwappedMean(k: Text, v: Json, k': Text, v': Json, rest: Members)
    requires k != k'
    ensures var here, there := Member(k, v, Member(k', v', rest)), Member(k', v', Member(k, v, rest));
            && MembersMeaning(here) == MembersMeaning(there)
            && (forall x :: HasKey(here, x) <==> x == k || x == k' || HasKey(rest, x))
            && (ValidMembers(rest) && Valid(v) && Valid(v') && !HasKey(rest, k) && !HasKey(rest, k') ==>
                  ValidMembers(here))
  {
    hide Meaning, Valid;
    var here, there := Member(k', v', rest), Member(k, v, rest);
    assert MembersMeaning(Member(k, v, here)) == MembersMeaning(rest)[k' := Meaning(v')][k := Meaning(v)];
    assert MembersMeaning(Member(k', v', there)) == MembersMeaning(rest)[k := Meaning(v)][k' := Meaning(v')];
  }

  lemma OneMember(k: Text, s: Text)
    ensures ValidMembers(Member(k, Str(s), NoMembers))
    ensures forall x :: HasKey(Member(k, Str(s), NoMembers), x) <==> x == k
  {
  }

  /** The order of an entry's fields does not matter to what is digested. */
  lemma EntryMaterialMeans(a: Program, b: Program, sequence: int, kind: Kind, sourceId: Text, sourceSha: Text)
    ensures Valid(EntryMaterial(a, sequence, kind, sourceId, sourceSha))
    ensures Meaning(EntryMaterial(a, sequence, kind, sourceId, sourceSha))
            == Meaning(EntryMaterial(b, sequence, kind, sourceId, sourceSha))
  {
    hide Ascii7, KindName, MembersMeaning, ValidMembers, HasKey;
    DifferentNames();
    var kindName, id, name := Ascii7("source_kind"), Ascii7("source_id"), Str(KindName(kind));
    var sha := Field("source_sha256", Str(sourceSha), NoMembers);
    OneMember(Ascii7("source_sha256"), sourceSha);
    SwappedMean(id, Str(sourceId), kindName, name, sha);
    SwappedMean(kindName, name, id, Str(sourceId), sha);
    HeadMeans(Ascii7("sequence"), sequence, Member(id, Str(sourceId), Member(kindName, name, sha)),
              Member(kindName, name, Member(id, Str(sourceId), sha)));
  }

  lemma HeadMeans(k: Text, n: int, rest: Members, rest': Members)
    requires ValidMembers(rest) && ValidMembers(rest') && !HasKey(rest, k) && !HasKey(rest', k)
    requires MembersMeaning(rest) == MembersMeaning(rest')
    ensures ValidMembers(Member(k, Num(n), rest)) && ValidMembers(Member(k, Num(n), rest'))
    ensures MembersMeaning(Member(k, Num(n), rest)) == MembersMeaning(Member(k, Num(n), rest'))
    ensures MembersMeaning(Member(k, Num(n), rest)) == MembersMeaning(rest)[k := NumValue(n)]
  {
  }

  lemma SourceItemMeans(a: Program, b: Program, e: Entry)
    ensures Valid(SourceItem(a, e)) && Meaning(SourceItem(a, e)) == Meaning(SourceItem(b, e))
  {
    hide Ascii7, KindName, MembersMeaning, ValidMembers, HasKey;
    DifferentNames();
    var kindName, id, name := Ascii7("source_kind"), Ascii7("source_id"), Str(KindName(e.kind));
    var sha := Field("source_sha256", Str(e.sourceSha), NoMembers);
    OneMember(Ascii7("source_sha256"), e.sourceSha);
    SwappedMean(id, Str(e.sourceId), kindName, name, sha);
    SwappedMean(kindName, name, id, Str(e.sourceId), sha);
  }

  lemma {:induction false} SourceItemsMean(a: Program, b: Program, entries: seq<Entry>)
    ensures ValidItems(SourceItems(a, entries))
    ensures ItemsMeaning(SourceItems(a, entries)) == ItemsMeaning(SourceItems(b, entries))
  {
    hide SourceItem, Valid, Meaning;
    if entries != [] {
      SourceItemMeans(a, b, entries[0]);
      SourceItemsMean(a, b, entries[1..]);
    }
  }

  /** What is digested is one text for the contract and the console, and for Python too where
      that text is ASCII. */
  lemma OneSourceText(timeline: seq<Entry>)
    requires timeline != []
    ensures SourceText(Console, timeline) == SourceText(Contract, timeline)
    ensures Ascii(SourceText(Contract, timeline)) ==>
              SourceText(PythonContract, timeline) == SourceText(Contract, timeline)
  {
    var front := timeline[..|timeline| - 1];
    SourceItemsMean(Console, Contract, front);
    SourceItemsMean(Contract, Console, front);
    SourceItemsMean(PythonContract, Contract, front);
    OneMeaningOneText(TypeScript, SourceMaterial(Console, timeline), SourceMaterial(Contract, timeline));
    OneMeaningOneText(TypeScript, SourceMaterial(PythonContract, timeline), SourceMaterial(Contract, timeline));
    StylesAgree(SourceMaterial(PythonContract, timeline));
  }

  lemma OneEntryText(e: Entry, sequence: nat)
    ensures EntryText(Console, e, sequence) == EntryText(Contract, e, sequence)
    ensures Ascii(EntryText(Contract, e, sequence)) ==>
              EntryText(PythonContract, e, sequence) == EntryText(Contract, e, sequence)
  {
    hide Printed, EntryMaterial;
    var kind, id, sha := e.kind, e.sourceId, e.sourceSha;
    EntryMaterialMeans(PythonContract, Contract, sequence, kind, id, sha);
    EntryMaterialMeans(Contract, Console, sequence, kind, id, sha);
    EntryMaterialMeans(Console, Contract, sequence, kind, id, sha);
    OneMeaningOneText(TypeScript, EntryMaterial(PythonContract, sequence, kind, id, sha),
                      EntryMaterial(Contract, sequence, kind, id, sha));
    OneMeaningOneText(TypeScript, EntryMaterial(Console, sequence, kind, id, sha),
                      EntryMaterial(Contract, sequence, kind, id, sha));
    StylesAgree(EntryMaterial(PythonContract, sequence, kind, id, sha));
  }

  /** Where the names of the kinds differ: in their lengths, or in their second or tenth letter. */
  ghost function KindNamed(length: nat, second: int, tenth: int): Option<Kind> {
    match length
    case 8 => Some(EvidenceNode)
    case 10 => if second == 'a' as int then Some(CaseEvent) else Some(AgentStep)
    case 11 => Some(ToolResult)
    case 12 => Some(ToolRequest)
    case 13 => if second == 'a' as int then Some(CaseRevision) else Some(ReplayResult)
    case 15 => if second == 'c' as int then Some(AcceptedIntake) else if second == 'o' as int then Some(PolicyDecision)
               else Some(DeliveryIntent)
    case 16 => if second == 'o' as int then Some(ContextManifest)
               else if second == 'e' as int then Some(VerifierOutcome)
               else if second == 'a' as int then Some(CapabilityGrant) else Some(ApprovalRequest)
    case 17 => if second == 'o' as int then Some(PolicyActivation) else Some(ApprovalDecision)
    case 18 => Some(Kind.ResponseCandidate)
    case 19 => if second == 'e' as int then Some(DeliveryCompletion)
               else if tenth == 'a' as int then Some(WorkflowActivation) else Some(WorkflowCheckpoint)
    case 21 => Some(AuthorizationBinding)
    case _ => None
  }

  /** No two kinds have one name. */
  lemma NamesDiffer(k: Kind, k': Kind)
    ensures KindName(k) == KindName(k') <==> k == k'
  {
    NameTellsKind(k);
    NameTellsKind(k');
  }

  lemma NameTellsKind(k: Kind)
    ensures var t := KindName(k);
            |t| > 1 && KindNamed(|t|, t[1], if |t| > 9 then t[9] else 0) == Some(k)
  {
    hide KindName, KindNamed, Rank, PhaseOf;
    if Rank(PhaseOf(k)) <= 3 {
      EarlyNameTells(k);
    } else if Rank(PhaseOf(k)) <= 6 {
      MiddleNameTells(k);
    } else {
      LateNameTells(k);
    }
  }

  lemma EarlyNameTells(k: Kind)
    requires Rank(PhaseOf(k)) <= 3
    ensures var t := KindName(k);
            |t| > 1 && KindNamed(|t|, t[1], if |t| > 9 then t[9] else 0) == Some(k)
  {
  }

  lemma MiddleNameTells(k: Kind)
    requires 4 <= Rank(PhaseOf(k)) <= 6
    ensures var t := KindName(k);
            |t| > 1 && KindNamed(|t|, t[1], if |t| > 9 then t[9] else 0) == Some(k)
  {
  }

  lemma LateNameTells(k: Kind)
    requires 7 <= Rank(PhaseOf(k))
    ensures var t := KindName(k);
            |t| > 1 && KindNamed(|t|, t[1], if |t| > 9 then t[9] else 0) == Some(k)
  {
  }

  /** What a source is named by, and by what its content is fixed. */
  predicate SameSource(e: Entry, f: Entry) {
    e.kind == f.kind && e.sourceId == f.sourceId && e.sourceSha == f.sourceSha
  }

  /** The text of an entry decides its place and its source: it leaves nothing of them out. */
  lemma EntryTextDecides(who: Program, e: Entry, i: nat, f: Entry, j: nat)
    ensures EntryText(who, e, i) == EntryText(who, f, j) <==> i == j && SameSource(e, f)
  {
    hide Printed, MembersMeaning, ValidMembers, HasKey, KindName, Ascii7, EntryMaterial;
    var a, b := EntryMaterial(who, i, e.kind, e.sourceId, e.sourceSha),
                EntryMaterial(who, j, f.kind, f.sourceId, f.sourceSha);
    EntryMaterialMeans(who, who, i, e.kind, e.sourceId, e.sourceSha);
    EntryMaterialMeans(who, who, j, f.kind, f.sourceId, f.sourceSha);
    CanonicalTextDecides(StyleOf(who), a, b);
    EntryMaterialHolds(who, i, e.kind, e.sourceId, e.sourceSha);
    EntryMaterialHolds(who, j, f.kind, f.sourceId, f.sourceSha);
    NamesDiffer(e.kind, f.kind);
    DifferentNames();
    var id, name, sha := Ascii7("source_id"), Ascii7("source_kind"), Ascii7("source_sha256");
    var m, m' := Meaning(a).members, Meaning(b).members;
    assert m[id] == StrValue(e.sourceId) && m[name] == StrValue(KindName(e.kind)) && m[sha] == StrValue(e.sourceSha)
           && m[Ascii7("sequence")] == NumValue(i);
    assert m'[id] == StrValue(f.sourceId) && m'[name] == StrValue(KindName(f.kind))
           && m'[sha] == StrValue(f.sourceSha) && m'[Ascii7("sequence")] == NumValue(j);
  }

  lemma EntryMaterialHolds(who: Program, sequence: int, kind: Kind, sourceId: Text, sourceSha: Text)
    ensures Meaning(EntryMaterial(who, sequence, kind, sourceId, sourceSha))
            == ObjValue(map[Ascii7("sequence") := NumValue(sequence), Ascii7("source_id") := StrValue(sourceId),
                            Ascii7("source_kind") := StrValue(KindName(kind)),
                            Ascii7("source_sha256") := StrValue(sourceSha)])
  {
    hide Ascii7, KindName, MembersMeaning;
    DifferentNames();
    var members := EntryMaterial(who, sequence, kind, sourceId, sourceSha).members;
    ThreeMembers(members.rest);
    FirstMember(members);
  }

  lemma FirstMember(members: Members)
    requires members.Member?
    ensures MembersMeaning(members) == MembersMeaning(members.rest)[members.key := Meaning(members.value)]
  {
  }

  lemma ThreeMembers(a: Members)
    requires a.Member? && a.rest.Member? && a.rest.rest.Member? && a.rest.rest.rest.NoMembers?
    ensures MembersMeaning(a)
            == map[a.rest.rest.key := Meaning(a.rest.rest.value)][a.rest.key := Meaning(a.rest.value)]
                  [a.key := Meaning(a.value)]
  {
    FirstMember(a.rest.rest);
    FirstMember(a.rest);
  }

  /** The text of the sources decides how many there are, and each in its place. */
  lemma SourceTextDecides(who: Program, a: seq<Entry>, b: seq<Entry>)
    requires a != [] && b != []
    ensures SourceText(who, a) == SourceText(who, b)
            <==> |a| == |b| && forall i :: 0 <= i < |a| - 1 ==> SameSource(a[i], b[i])
  {
    hide SourceItems, Printed, SourceItem, ValidItems;
    var front, front' := a[..|a| - 1], b[..|b| - 1];
    SourceItemsMean(who, who, front);
    SourceItemsMean(who, who, front');
    CanonicalTextDecides(StyleOf(who), SourceMaterial(who, a), SourceMaterial(who, b));
    SourceItemsDecide(who, front, front');
  }

  lemma {:induction false} SourceItemsDecide(who: Program, a: seq<Entry>, b: seq<Entry>)
    ensures ItemsMeaning(SourceItems(who, a)) == ItemsMeaning(SourceItems(who, b))
            <==> |a| == |b| && forall i :: 0 <= i < |a| ==> SameSource(a[i], b[i])
  {
    hide SourceItem, Meaning, SameSource;
    if a != [] && b != [] {
      SourceItemsDecide(who, a[1..], b[1..]);
      SourceItemDecides(who, a[0], b[0]);
      var x, y := ItemsMeaning(SourceItems(who, a)), ItemsMeaning(SourceItems(who, b));
      assert x[1..] == ItemsMeaning(SourceItems(who, a[1..])) && y[1..] == ItemsMeaning(SourceItems(who, b[1..]));
      assert x == [x[0]] + x[1..] && y == [y[0]] + y[1..];
      assert forall i :: 0 < i < |a| ==> a[i] == a[1..][i - 1];
      assert forall i :: 0 < i < |b| ==> b[i] == b[1..][i - 1];
    }
  }

  /** An entry id identifies a place and a source, as far as half of a digest can. */
  lemma IdTellsEntry(who: Program, w: World, e: Entry, i: nat, f: Entry, j: nat)
    requires var x, y := w.sha(EntryText(who, e, i)), w.sha(EntryText(who, f, j));
             |x| == 64 && |y| == 64 && (EntryText(who, e, i) != EntryText(who, f, j) ==> x[..32] != y[..32])
    ensures EntryId(who, w, e, i) == EntryId(who, w, f, j) <==> i == j && SameSource(e, f)
  {
    hide EntryText, SameSource, Ascii7;
    EntryTextDecides(who, e, i, f, j);
    var name := Ascii7("operator_entry_");
    assert EntryId(who, w, e, i)[|name|..] == w.sha(EntryText(who, e, i))[..32];
    assert EntryId(who, w, f, j)[|name|..] == w.sha(EntryText(who, f, j))[..32];
  }

  lemma SourceItemDecides(who: Program, e: Entry, f: Entry)
    ensures Meaning(SourceItem(who, e)) == Meaning(SourceItem(who, f)) <==> SameSource(e, f)
  {
    hide Ascii7, KindName, SourceItem, MembersMeaning;
    SourceItemHolds(who, e);
    SourceItemHolds(who, f);
    NamesDiffer(e.kind, f.kind);
    DifferentNames();
    var id, name, sha := Ascii7("source_id"), Ascii7("source_kind"), Ascii7("source_sha256");
    var m, m' := Meaning(SourceItem(who, e)).members, Meaning(SourceItem(who, f)).members;
    assert m[id] == StrValue(e.sourceId) && m[name] == StrValue(KindName(e.kind)) && m[sha] == StrValue(e.sourceSha);
    assert m'[id] == StrValue(f.sourceId) && m'[name] == StrValue(KindName(f.kind))
           && m'[sha] == StrValue(f.sourceSha);
  }

  lemma SourceItemHolds(who: Program, e: Entry)
    ensures Meaning(SourceItem(who, e))
            == ObjValue(map[Ascii7("source_id") := StrValue(e.sourceId),
                            Ascii7("source_kind") := StrValue(KindName(e.kind)),
                            Ascii7("source_sha256") := StrValue(e.sourceSha)])
  {
    hide Ascii7, KindName, MembersMeaning;
    DifferentNames();
    ThreeMembers(SourceItem(who, e).members);
  }

  // ---- The validators -----------------------------------------------------------------------------------

  /** What the loops ask of each entry in its place. */
  predicate EntryPasses(who: Program, w: World, timeline: seq<Entry>, i: nat)
    requires i < |timeline|
  {
    var e := timeline[i];
    && ChainedAt(timeline, i) && e.phase == PhaseOf(e.kind)
    && (i > 0 ==> Rank(timeline[i - 1].phase) <= Rank(e.phase))
    && NamedByKind(e) && Clean(e) && e.id == EntryId(who, w, e, i + 1)
  }

  /** Passing one by one is being sound as a whole. */
  lemma LocalMeansWhole(who: Program, w: World, timeline: seq<Entry>)
    ensures (forall i :: 0 <= i < |timeline| ==> EntryPasses(who, w, timeline, i))
            <==> Chained(timeline) && Phased(timeline) && AllClean(timeline) && Identified(who, w, timeline)
  {
    hide EntryId, NamedByKind, Clean, PhaseOf;
    if forall i :: 0 <= i < |timeline| ==> EntryPasses(who, w, timeline, i) {
      forall i | 0 <= i < |timeline|
        ensures ChainedAt(timeline, i) && timeline[i].phase == PhaseOf(timeline[i].kind)
        ensures Clean(timeline[i]) && NamedByKind(timeline[i])
        ensures timeline[i].id == EntryId(who, w, timeline[i], i + 1)
      {
        assert EntryPasses(who, w, timeline, i);
      }
      forall i, j | 0 <= i < j < |timeline|
        ensures Rank(timeline[i].phase) <= Rank(timeline[j].phase)
      {
        RanksAscend(who, w, timeline, i, j);
      }
    }
  }

  lemma {:induction false} RanksAscend(who: Program, w: World, timeline: seq<Entry>, i: nat, j: nat)
    requires forall k :: 0 <= k < |timeline| ==> EntryPasses(who, w, timeline, k)
    requires i <= j < |timeline|
    ensures Rank(timeline[i].phase) <= Rank(timeline[j].phase)
  {
    hide EntryId, NamedByKind, Clean, PhaseOf, Rank;
    if i < j {
      RanksAscend(who, w, timeline, i, j - 1);
      assert EntryPasses(who, w, timeline, j);
    }
  }

  /** The loop of either contract over the entries. */
  method CheckEntries(who: Program, w: World, timeline: seq<Entry>) returns (ok: bool)
    ensures ok <==> forall i :: 0 <= i < |timeline| ==> EntryPasses(who, w, timeline, i)
  {
    hide EntryId, Rank, PhaseOf, KindName;
    var prior: Option<Text>, priorRank: int := None, -1;
    for i := 0 to |timeline|
      invariant forall j :: 0 <= j < i ==> EntryPasses(who, w, timeline, j)
      invariant prior == if i == 0 then None else Some(timeline[i - 1].id)
      invariant priorRank == if i == 0 then -1 else Rank(timeline[i - 1].phase)
    {
      var e := timeline[i];
      if e.sequence != i + 1 || e.predecessor != prior {
        assert !EntryPasses(who, w, timeline, i);
        return false;
      }
      if e.phase != PhaseOf(e.kind) || Rank(PhaseOf(e.kind)) < priorRank {
        assert !EntryPasses(who, w, timeline, i);
        return false;
      }
      priorRank := Rank(PhaseOf(e.kind));
      if Prefix(e.sourceId) != KindName(e.kind) {
        assert !EntryPasses(who, w, timeline, i);
        return false;
      }
      if e.id != EntryId(who, w, e, i + 1) {
        assert !EntryPasses(who, w, timeline, i);
        return false;
      }
      if (HardGate(e.kind) && !e.gate.GatePassed?) || e.gate.GateFailed? || e.result.Blocked?
         || e.observation in {Denied, Stale, Timeout} {
        assert !EntryPasses(who, w, timeline, i);
        return false;
      }
      if !e.recovery.NotRequired? {
        assert !EntryPasses(who, w, timeline, i);
        return false;
      }
      prior := Some(e.id);
    }
    return true;
  }

  /** The contract in TypeScript. */
  method ContractValidate(w: World, s: Snapshot) returns (valid: bool)
    ensures valid <==> ContractAccepts(w, s)
  {
    hide EntryPasses, Identified, Chained, Phased, AllClean, Counted, Covers, GatesOnce, SnapshotText, SourceText,
         KindName, Ascii7;
    var hash := SnapshotHash(Contract, w, s);
    if s.sha != hash || s.id != Ascii7("operator_case_snapshot_") + hash {
      return false;
    }
    if s.reportSha != s.replayReportSha || s.root != s.recordedRoot || s.root != s.replayedRoot {
      return false;
    }
    var ok := CheckEntries(Contract, w, s.timeline);
    LocalMeansWhole(Contract, w, s.timeline);
    if !ok {
      return false;
    }
    var ids, sourceIds, kinds := Ids(s.timeline), SourceIds(s.timeline), Kinds(s.timeline);
    SetSizeDecides(ids);
    SetSizeDecides(sourceIds);
    if |set x | x in ids| != |ids| || |set x | x in sourceIds| != |sourceIds| {
      return false;
    }
    CoversMeans(kinds);
    if !Covers(kinds) {
      return false;
    }
    if s.timelineSourceSha != SourceHash(Contract, w, s.timeline) {
      return false;
    }
    if !Counted(s.counts, kinds) {
      return false;
    }
    return Linked(s) && GatesOnce(s.timeline);
  }

  /** The console's validator, written separately: it accepts what the contract accepts, if a
      few numbers are those of its one fixture. */
  method ConsoleValidate(w: World, s: Snapshot) returns (valid: bool)
    ensures valid <==> ConsoleAccepts(w, s)
  {
    hide EntryPasses, Identified, Chained, Phased, AllClean, Counted, Covers, GatesOnce, SnapshotText, SourceText,
         KindName, Ascii7, EntryText;
    if s.nodeCount < 1 || s.nodeCount > 127 || s.counts.revisions != 1 || s.counts.ticketEffects != 2
       || s.counts.deliveryEffects != 1 || s.counts.replays != 1 || |s.timeline| < 2 || |s.timeline| > 128 {
      return false;
    }
    var ok, ids, sourceIds, kinds := CheckShape(s.timeline);
    ShapedMeansWhole(s.timeline);
    if !ok {
      return false;
    }
    SetSizeDecides(ids);
    SetSizeDecides(sourceIds);
    if |set x | x in ids| != |ids| || |set x | x in sourceIds| != |sourceIds| {
      return false;
    }
    CoversMeans(kinds);
    if !(forall k: Kind :: k in kinds) || !kinds[|kinds| - 1].ReplayResult? {
      return false;
    }
    if s.reportSha != s.replayReportSha || s.root != s.recordedRoot || s.root != s.replayedRoot
       || SourceOf(CaseRevision, s.revisionId) !in sourceIds
       || SourceOf(WorkflowCheckpoint, s.checkpointId) !in sourceIds
       || sourceIds[|sourceIds| - 1] != SourceOf(ReplayResult, s.replayId)
       || s.timeline[|s.timeline| - 1].sourceSha != s.replaySha || !Counted(s.counts, kinds) {
      return false;
    }
    if !GatesOnce(s.timeline) {
      return false;
    }
    valid := CheckDigests(w, s);
  }

  /** What the console digests once the shape is right. */
  method CheckDigests(w: World, s: Snapshot) returns (valid: bool)
    requires s.timeline != []
    ensures valid <==> Digested(Contract, w, s)
  {
    hide Identified, SnapshotText, SourceText, EntryText, Ascii7;
    if !(forall i :: 0 <= i < |s.timeline| ==> s.timeline[i].id == EntryId(Console, w, s.timeline[i], i + 1)) {
      SameIds(w, s.timeline);
      return false;
    }
    SameIds(w, s.timeline);
    OneSourceText(s.timeline);
    if s.timelineSourceSha != SourceHash(Console, w, s.timeline) {
      return false;
    }
    var hash := SnapshotHash(Console, w, s);
    SameSnapshotText(w, s);
    return s.sha == hash && s.id == Ascii7("operator_case_snapshot_") + hash;
  }

  /** What the console asks of an entry before it digests anything. */
  predicate EntryShaped(timeline: seq<Entry>, i: nat)
    requires i < |timeline|
  {
    var e := timeline[i];
    && ChainedAt(timeline, i) && e.phase == PhaseOf(e.kind)
    && (i > 0 ==> Rank(timeline[i - 1].phase) <= Rank(e.phase)) && NamedByKind(e) && Clean(e)
  }

  /** The console's loop, with the lists that it gathers. */
  method CheckShape(timeline: seq<Entry>) returns (ok: bool, ids: seq<Text>, sourceIds: seq<Text>, kinds: seq<Kind>)
    ensures ok <==> forall i :: 0 <= i < |timeline| ==> EntryShaped(timeline, i)
    ensures ok ==> ids == Ids(timeline) && sourceIds == SourceIds(timeline) && kinds == Kinds(timeline)
  {
    hide Rank, PhaseOf, KindName;
    ids, sourceIds, kinds := [], [], [];
    if exists i :: 0 <= i < |timeline|
                   && (timeline[i].phase != PhaseOf(timeline[i].kind)
                       || Prefix(timeline[i].sourceId) != KindName(timeline[i].kind)) {
      ghost var i :| 0 <= i < |timeline|
                     && (timeline[i].phase != PhaseOf(timeline[i].kind)
                         || Prefix(timeline[i].sourceId) != KindName(timeline[i].kind));
      assert !EntryShaped(timeline, i);
      return false, ids, sourceIds, kinds;
    }
    var prior: Option<Text>, priorRank: int := None, -1;
    for i := 0 to |timeline|
      invariant forall j :: 0 <= j < i ==> EntryShaped(timeline, j)
      invariant prior == if i == 0 then None else Some(timeline[i - 1].id)
      invariant priorRank == if i == 0 then -1 else Rank(timeline[i - 1].phase)
      invariant ids == Ids(timeline[..i]) && sourceIds == SourceIds(timeline[..i]) && kinds == Kinds(timeline[..i])
    {
      var e := timeline[i];
      var rank := Rank(e.phase);
      if e.sequence != i + 1 || e.predecessor != prior || rank < priorRank
         || (HardGate(e.kind) && !e.gate.GatePassed?) || e.gate.GateFailed? || e.result.Blocked?
         || e.observation in {Denied, Stale, Timeout} || !e.recovery.NotRequired? {
        assert !EntryShaped(timeline, i);
        return false, ids, sourceIds, kinds;
      }
      prior, priorRank := Some(e.id), rank;
      ids, sourceIds, kinds := ids + [e.id], sourceIds + [e.sourceId], kinds + [e.kind];
    }
    assert timeline[..|timeline|] == timeline;
    return true, ids, sourceIds, kinds;
  }

  lemma CoversMeans(kinds: seq<Kind>)
    ensures Covers(kinds) <==> kinds != [] && kinds[|kinds| - 1].ReplayResult? && forall k: Kind :: k in kinds
  {
  }

  lemma ShapedMeansWhole(timeline: seq<Entry>)
    ensures (forall i :: 0 <= i < |timeline| ==> EntryShaped(timeline, i))
            <==> Chained(timeline) && Phased(timeline) && AllClean(timeline)
  {
    hide Rank, PhaseOf, KindName, EntryId;
    if forall i :: 0 <= i < |timeline| ==> EntryShaped(timeline, i) {
      forall i | 0 <= i < |timeline|
        ensures ChainedAt(timeline, i) && timeline[i].phase == PhaseOf(timeline[i].kind)
        ensures Clean(timeline[i]) && NamedByKind(timeline[i])
      {
        assert EntryShaped(timeline, i);
      }
      forall i, j | 0 <= i < j < |timeline|
        ensures Rank(timeline[i].phase) <= Rank(timeline[j].phase)
      {
        ShapesAscend(timeline, i, j);
      }
    }
  }

  lemma {:induction false} ShapesAscend(timeline: seq<Entry>, i: nat, j: nat)
    requires forall k :: 0 <= k < |timeline| ==> EntryShaped(timeline, k)
    requires i <= j < |timeline|
    ensures Rank(timeline[i].phase) <= Rank(timeline[j].phase)
  {
    hide NamedByKind, Clean, PhaseOf, Rank;
    if i < j {
      ShapesAscend(timeline, i, j - 1);
      assert EntryShaped(timeline, j);
    }
  }

  lemma SameSnapshotText(w: World, s: Snapshot)
    ensures SnapshotText(Console, w, s) == SnapshotText(Contract, w, s)
  {
  }

  lemma SameIds(w: World, timeline: seq<Entry>)
    ensures (forall i :: 0 <= i < |timeline| ==> timeline[i].id == EntryId(Console, w, timeline[i], i + 1))
            <==> Identified(Contract, w, timeline)
  {
    forall i | 0 <= i < |timeline|
      ensures EntryId(Console, w, timeline[i], i + 1) == EntryId(Contract, w, timeline[i], i + 1)
    {
      hide EntryText;
      OneEntryText(timeline[i], i + 1);
    }
  }

  // ---- The contract in Python -----------------------------------------------------------------------------

  function OfKind(timeline: seq<Entry>, k: Kind): seq<Entry> {
    if timeline == [] then []
    else
      var last := timeline[|timeline| - 1];
      OfKind(timeline[..|timeline| - 1], k) + if last.kind == k then [last] else []
  }

  lemma CountAppended(kinds: seq<Kind>, x: Kind, k: Kind)
    ensures Count(kinds + [x], k) == Count(kinds, k) + if x == k then 1 else 0
  {
  }

  lemma {:induction false} OfKindSize(timeline: seq<Entry>, k: Kind)
    ensures |OfKind(timeline, k)| == Count(Kinds(timeline), k)
  {
    if timeline != [] {
      var n := |timeline| - 1;
      OfKindSize(timeline[..n], k);
      CountAppended(Kinds(timeline[..n]), timeline[n].kind, k);
      assert Kinds(timeline) == Kinds(timeline[..n]) + [timeline[n].kind];
      hide Count, Kinds;
    }
  }

  /** The numbers of an accepted snapshot are those of its timeline. */
  lemma CountsTell(s: Snapshot)
    requires SoundTimeline(s)
    ensures var c, t := s.counts, s.timeline;
            && c.entries == |t| && c.nodes == |t| - 1
            && c.events == |OfKind(t, AcceptedIntake)| + |OfKind(t, CaseEvent)|
            && c.revisions == |OfKind(t, CaseRevision)| && c.checkpoints == |OfKind(t, WorkflowCheckpoint)|
            && c.steps == |OfKind(t, AgentStep)| && c.toolResults == |OfKind(t, ToolResult)|
            && c.deliveryEffects == |OfKind(t, DeliveryCompletion)| && c.replays == |OfKind(t, ReplayResult)|
  {
    hide OfKind, Count, Chained, Phased, AllClean, Distinct, Covers, Linked, RootsAgree, GatesOnce;
    forall k: Kind
      ensures |OfKind(s.timeline, k)| == Count(Kinds(s.timeline), k)
    {
      OfKindSize(s.timeline, k);
    }
  }

  lemma {:induction false} OfKindCounts(timeline: seq<Entry>, k: Kind, o: Observation)
    ensures |OfKind(timeline, k)| == Count(Kinds(timeline), k)
    ensures OfKind(timeline, k) == [] ==> Matching(timeline, k, o) == 0
    ensures |OfKind(timeline, k)| == 1 ==>
              Matching(timeline, k, o) == if OfKind(timeline, k)[0].observation == o then 1 else 0
  {
    hide Count, Kinds, OfKind, Matching;
    OfKindSize(timeline, k);
    FilterStep(timeline, k, o);
    if timeline != [] {
      var n := |timeline| - 1;
      var front, last := OfKind(timeline[..n], k), timeline[n];
      OfKindCounts(timeline[..n], k, o);
      if last.kind == k && front == [] {
        assert OfKind(timeline, k) == [last];
      } else if last.kind != k {
        assert OfKind(timeline, k) == front;
      }
    }
  }

  lemma FilterStep(timeline: seq<Entry>, k: Kind, o: Observation)
    ensures timeline == [] ==> OfKind(timeline, k) == [] && Matching(timeline, k, o) == 0
    ensures timeline != [] ==>
              var front, last := timeline[..|timeline| - 1], timeline[|timeline| - 1];
              && OfKind(timeline, k) == OfKind(front, k) + (if last.kind == k then [last] else [])
              && Matching(timeline, k, o)
                 == Matching(front, k, o) + if last.kind == k && last.observation == o then 1 else 0
  {
  }

  /** The only entry of its kind, and with this observation. */
  predicate Only(timeline: seq<Entry>, k: Kind, o: Observation) {
    |OfKind(timeline, k)| == 1 && OfKind(timeline, k)[0].observation == o
  }

  /** The contract in Python asks for one entry of each gate kind, whatever it observed. */
  method PythonValidate(w: World, s: Snapshot) returns (valid: bool)
    ensures valid <==> PythonAccepts(w, s)
  {
    hide EntryPasses, Identified, Chained, Phased, AllClean, Counted, Covers, SnapshotText, SourceText,
         KindName, Ascii7, Matching, OfKind, Count;
    var hash := SnapshotHash(PythonContract, w, s);
    if s.sha != hash || s.id != Ascii7("operator_case_snapshot_") + hash {
      return false;
    }
    if s.reportSha != s.replayReportSha || s.root != s.recordedRoot || s.root != s.replayedRoot {
      return false;
    }
    var ok := CheckEntries(PythonContract, w, s.timeline);
    LocalMeansWhole(PythonContract, w, s.timeline);
    if !ok {
      return false;
    }
    var ids, sourceIds, kinds := Ids(s.timeline), SourceIds(s.timeline), Kinds(s.timeline);
    SetSizeDecides(ids);
    SetSizeDecides(sourceIds);
    if |set x | x in ids| != |ids| || |set x | x in sourceIds| != |sourceIds| {
      return false;
    }
    CoversMeans(kinds);
    if !Covers(kinds) || s.timelineSourceSha != SourceHash(PythonContract, w, s.timeline)
       || !Counted(s.counts, kinds) || !Linked(s) {
      return false;
    }
    OfKindCounts(s.timeline, VerifierOutcome, Verified);
    OfKindCounts(s.timeline, PolicyDecision, Allowed);
    OfKindCounts(s.timeline, ApprovalDecision, Approved);
    OfKindCounts(s.timeline, DeliveryCompletion, FixtureLocalRecorded);
    return Only(s.timeline, VerifierOutcome, Verified) && Only(s.timeline, PolicyDecision, Allowed)
           && Only(s.timeline, ApprovalDecision, Approved)
           && Only(s.timeline, DeliveryCompletion, FixtureLocalRecorded);
  }

  /** What the Python contract digests is ASCII, whatever it stands for. */
  lemma PythonTextsAscii(w: World, s: Snapshot, e: Entry, sequence: nat)
    requires s.timeline != []
    ensures Ascii(SnapshotText(PythonContract, w, s)) && Ascii(SourceText(PythonContract, s.timeline))
    ensures Ascii(EntryText(PythonContract, e, sequence))
  {
    hide Ascii, Printed, EntryMaterial;
    PrintedStyles(w.encode(s.(id := [], sha := [])));
    PrintedStyles(SourceMaterial(PythonContract, s.timeline));
    PrintedStyles(EntryMaterial(PythonContract, sequence, e.kind, e.sourceId, e.sourceSha));
  }

  /** All that is digested is ASCII. */
  predicate AsciiThroughout(w: World, s: Snapshot)
    requires s.timeline != []
  {
    && Ascii(SnapshotText(Contract, w, s)) && Ascii(SourceText(Contract, s.timeline))
    && forall i :: 0 <= i < |s.timeline| ==> Ascii(EntryText(Contract, s.timeline[i], i + 1))
  }

  lemma SameDigests(w: World, s: Snapshot)
    requires s.timeline != [] && AsciiThroughout(w, s)
    ensures Digested(PythonContract, w, s) <==> Digested(Contract, w, s)
  {
    hide EntryText, SourceText, Ascii;
    assert SnapshotText(PythonContract, w, s) == SnapshotText(Contract, w, s) by {
      StylesAgree(w.encode(s.(id := [], sha := [])));
    }
    hide SnapshotText;
    OneSourceText(s.timeline);
    forall i | 0 <= i < |s.timeline|
      ensures EntryId(PythonContract, w, s.timeline[i], i + 1) == EntryId(Contract, w, s.timeline[i], i + 1)
    {
      OneEntryText(s.timeline[i], i + 1);
    }
  }

  /** On ASCII the Python contract accepts exactly what the TypeScript one accepts with no
      second entry of a gate kind. */
  lemma PythonIsStricter(w: World, s: Snapshot)
    requires s.timeline != [] ==> AsciiThroughout(w, s)
    ensures PythonAccepts(w, s) <==> ContractAccepts(w, s) && KindsOnce(Kinds(s.timeline))
  {
    hide Digested, Chained, Phased, AllClean, Counted, Covers, Linked, GatesOnce, KindsOnce, AsciiThroughout;
    if s.timeline != [] {
      SameDigests(w, s);
    }
  }
}
