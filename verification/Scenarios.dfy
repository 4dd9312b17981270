/** The scenario life cycle and its approval gate (backend/app/domain/scenario.py,
    backend/app/services/scenario_service.py), on top of the chat threads whose
    completion makes room for the next active scenario. */
module Scenarios {
  import opened ReplenishmentPolicy
  import Deadlines

  datatype Json =
    | Null
    | Number(value: int)
    | Text(text: string)
    | List(items: seq<Json>)
    | Object(fields: map<string, Json>)

  type Package = map<string, Json>

  datatype Status = Draft | Approved | Active | Cancelled

  datatype Scenario = Scenario(
    status: Status, package: Package, tier: Option<nat>, cluster: Option<nat>, sourceFlag: Option<nat>)

  const VALID_TRANSITIONS := {
    (Draft, Approved), (Draft, Cancelled), (Approved, Active), (Approved, Cancelled), (Active, Cancelled) }

  const REQUIRED_FIELDS := [
    "known_cause", "evidence", "supporting_signals", "distractors", "expected_considerations",
    "acceptable_conclusions", "unacceptable_conclusions", "uncertainty" ]

  const BUILDER_NOTE_KEYS := {"narrative", "expected_query"}

  /** The content an Analyst is graded against. */
  function Graded(p: Package): Package {
    p - BUILDER_NOTE_KEYS
  }

  datatype ApprovalError = FieldMissing(name: string) | TierMissing | ClusterMissing

  datatype ScenarioError =
    | ScenarioNotFound
    | BadTransition
    | NoSourceFlag
    | FlagNotFound
    | FlagNotOpen
    | GenerationFailed
    | UnknownReferences
    | NotApprovable(errors: seq<ApprovalError>)
    | StillActive(blocking: nat)

  // ---- Validation ---------------------------------------------------------------------

  /** str.isspace on one character. */
  predicate IsSpace(c: char) {
    var n := c as int;
    || 9 <= n <= 13 || 28 <= n <= 32 || n == 0x85 || n == 0xA0 || n == 0x1680 || 0x2000 <= n <= 0x200A
    || n == 0x2028 || n == 0x2029 || n == 0x202F || n == 0x205F || n == 0x3000
  }

  predicate IsBlank(s: string) {
    forall i :: 0 <= i < |s| ==> IsSpace(s[i])
  }

  predicate FieldOk(name: string, value: Json) {
    match name
    case "evidence" => value.Object? && value.fields != map[]
    case "known_cause" => value.Text? && !IsBlank(value.text)
    case "uncertainty" => value.Text? && !IsBlank(value.text)
    case _ => value.List? && value.items != []
  }

  function Get(p: Package, name: string): Json {
    if name in p then p[name] else Null
  }

  /** Every required field is there with content, and the targeting is set. */
  predicate Complete(p: Package, tier: Option<nat>, cluster: Option<nat>) {
    && (forall name :: name in REQUIRED_FIELDS ==> name in p && FieldOk(name, p[name]))
    && tier.Some? && cluster.Some?
  }

  function FieldErrors(p: Package, names: seq<string>): seq<ApprovalError> {
    if names == [] then []
    else
      var front, name := FieldErrors(p, names[..|names| - 1]), names[|names| - 1];
      if FieldOk(name, Get(p, name)) then front else front + [FieldMissing(name)]
  }

  function ApprovalErrors(p: Package, tier: Option<nat>, cluster: Option<nat>): seq<ApprovalError> {
    FieldErrors(p, REQUIRED_FIELDS)
    + (if tier.None? then [TierMissing] else []) + (if cluster.None? then [ClusterMissing] else [])
  }

  lemma {:induction false} FieldErrorsName(p: Package, names: seq<string>)
    ensures forall e :: e in FieldErrors(p, names) <==> e.FieldMissing? && e.name in names && !FieldOk(e.name, Get(p, e.name))
  {
    if names != [] {
      FieldErrorsName(p, names[..|names| - 1]);
      assert names == names[..|names| - 1] + [names[|names| - 1]];
    }
  }

  predicate HasText(p: Package, name: string) {
    name in p && p[name].Text? && exists i :: 0 <= i < |p[name].text| && !IsSpace(p[name].text[i])
  }

  predicate HasItems(p: Package, name: string) {
    name in p && p[name].List? && |p[name].items| > 0
  }

  predicate HasFields(p: Package, name: string) {
    name in p && p[name].Object? && p[name].fields != map[]
  }

  lemma FieldMeans(p: Package, name: string)
    requires name in REQUIRED_FIELDS
    ensures name in p && FieldOk(name, p[name]) <==>
      if name == "evidence" then HasFields(p, name)
      else if name == "known_cause" || name == "uncertainty" then HasText(p, name)
      else HasItems(p, name)
  {
  }

  lemma AllRequired()
    ensures "known_cause" in REQUIRED_FIELDS && "evidence" in REQUIRED_FIELDS && "supporting_signals" in REQUIRED_FIELDS
    ensures "distractors" in REQUIRED_FIELDS && "expected_considerations" in REQUIRED_FIELDS
    ensures "acceptable_conclusions" in REQUIRED_FIELDS && "unacceptable_conclusions" in REQUIRED_FIELDS
    ensures "uncertainty" in REQUIRED_FIELDS && |REQUIRED_FIELDS| == 8
  {
    var names := REQUIRED_FIELDS;
    assert names[0] == "known_cause" && names[1] == "evidence" && names[2] == "supporting_signals" && names[3] == "distractors";
    assert names[4] == "expected_considerations" && names[5] == "acceptable_conclusions";
    assert names[6] == "unacceptable_conclusions" && names[7] == "uncertainty";
  }

  /** A complete package, field by field. */
  predicate IsComplete(p: Package, tier: Option<nat>, cluster: Option<nat>) {
    && HasText(p, "known_cause") && HasText(p, "uncertainty") && HasFields(p, "evidence")
    && HasItems(p, "supporting_signals") && HasItems(p, "distractors") && HasItems(p, "expected_considerations")
    && HasItems(p, "acceptable_conclusions") && HasItems(p, "unacceptable_conclusions")
    && tier.Some? && cluster.Some?
  }

  lemma CompleteMeans(p: Package, tier: Option<nat>, cluster: Option<nat>)
    ensures Complete(p, tier, cluster) <==> IsComplete(p, tier, cluster)
  {
    AllRequired();
    if Complete(p, tier, cluster) {
      FieldMeans(p, "known_cause");
      FieldMeans(p, "uncertainty");
      FieldMeans(p, "evidence");
      FieldMeans(p, "supporting_signals");
      FieldMeans(p, "distractors");
      FieldMeans(p, "expected_considerations");
      FieldMeans(p, "acceptable_conclusions");
      FieldMeans(p, "unacceptable_conclusions");
    }
    if IsComplete(p, tier, cluster) {
      forall name | name in REQUIRED_FIELDS ensures name in p && FieldOk(name, p[name]) {
        FieldMeans(p, name);
      }
    }
  }

  /** The gate opens exactly for complete packages, and each error names its reason. */
  lemma GateOpensIffComplete(p: Package, tier: Option<nat>, cluster: Option<nat>)
    ensures ApprovalErrors(p, tier, cluster) == [] <==> Complete(p, tier, cluster)
    ensures forall name :: FieldMissing(name) in ApprovalErrors(p, tier, cluster) <==>
      name in REQUIRED_FIELDS && !(name in p && FieldOk(name, p[name]))
  {
    FieldErrorsName(p, REQUIRED_FIELDS);
    var errors := FieldErrors(p, REQUIRED_FIELDS);
    if errors == [] {
      forall name | name in REQUIRED_FIELDS ensures name in p && FieldOk(name, p[name]) {
        assert FieldMissing(name) !in errors;
      }
    } else {
      assert errors[0] in errors;
    }
  }

  // ---- Calls --------------------------------------------------------------------------

  /** What an open exception flag says; the texts are formatted elsewhere. */
  datatype Facts = Facts(cause: string, evidence: map<string, Json>)

  datatype FlagState = Missing | Resolved | Open(facts: Facts)

  /** A generated narrative package; None stands for a failed generation. */
  datatype Narrative = Narrative(
    signals: Json, distractors: Json, considerations: Json, acceptable: Json, unacceptable: Json,
    uncertainty: Json, references: Json, narrative: Json, query: Json)

  function BuildGroundTruth(facts: Facts): Package {
    map[
      "known_cause" := Text(facts.cause), "evidence" := Object(facts.evidence),
      "supporting_signals" := List([]), "distractors" := List([]), "expected_considerations" := List([]),
      "acceptable_conclusions" := List([]), "unacceptable_conclusions" := List([]), "uncertainty" := Text("")]
  }

  function Regenerated(facts: Facts, n: Narrative): Package {
    map[
      "known_cause" := Text(facts.cause), "evidence" := Object(facts.evidence),
      "supporting_signals" := n.signals, "distractors" := n.distractors,
      "expected_considerations" := n.considerations, "acceptable_conclusions" := n.acceptable,
      "unacceptable_conclusions" := n.unacceptable, "uncertainty" := n.uncertainty,
      "referenced_entity_ids" := n.references, "narrative" := n.narrative, "expected_query" := n.query]
  }

  /** The fields a package holds under the generated narrative's names. */
  function NarrativeOf(p: Package): Narrative {
    Narrative(
      Get(p, "supporting_signals"), Get(p, "distractors"), Get(p, "expected_considerations"), Get(p, "acceptable_conclusions"),
      Get(p, "unacceptable_conclusions"), Get(p, "uncertainty"), Get(p, "referenced_entity_ids"), Get(p, "narrative"),
      Get(p, "expected_query"))
  }

  /** Regenerating loses and mixes up nothing: the package reads back as the
      facts and the narrative it was made from, and holds nothing else. */
  lemma RegeneratedReadsBack(facts: Facts, n: Narrative)
    ensures var p := Regenerated(facts, n);
            && NarrativeOf(p) == n
            && Get(p, "known_cause") == Text(facts.cause) && Get(p, "evidence") == Object(facts.evidence)
            && p.Keys == {
                 "known_cause", "evidence", "supporting_signals", "distractors", "expected_considerations",
                 "acceptable_conclusions", "unacceptable_conclusions", "uncertainty", "referenced_entity_ids", "narrative",
                 "expected_query"}
  {
  }

  datatype Step =
    | Create(flagId: nat, flag: FlagState, tier: Option<nat>, cluster: Option<nat>)
    | Regenerate(id: nat, flag: FlagState, generated: Option<Narrative>, referencesKnown: bool)
    | RegenerateNarrative(id: nat, text: Option<string>)
    | RegenerateQuery(id: nat, text: Option<string>)
    | UpdateGroundTruth(id: nat, updates: Package)
    | Approve(id: nat)
    | Activate(id: nat)
    | Cancel(id: nat)
    | Chat(users: seq<Deadlines.User>, call: Deadlines.Step)

  datatype System = System(scenarios: seq<Scenario>, chat: Deadlines.Desk)

  predicate MayEditBuilderNotes(s: Scenario, updates: Package) {
    s.status != Cancelled && updates != map[] && updates.Keys <= BUILDER_NOTE_KEYS
  }

  function TransitionError(s: System, id: nat, to: Status): Option<ScenarioError> {
    if id >= |s.scenarios| then Some(ScenarioNotFound)
    else if (s.scenarios[id].status, to) !in VALID_TRANSITIONS then Some(BadTransition)
    else None
  }

  /** An active scenario none of whose threads is completed. */
  predicate InFlight(s: System, id: nat) {
    id < |s.scenarios| && s.scenarios[id].status == Active && !Deadlines.HasCompleted(s.chat, id)
  }

  /** The least scenario other than `id`, from `start` on, that is still in flight. */
  function Blocking(s: System, id: nat, start: nat): (b: Option<nat>)
    ensures b.Some? ==> b.value != id && InFlight(s, b.value)
    ensures b.None? ==> forall other :: start <= other < |s.scenarios| && other != id ==> !InFlight(s, other)
    decreases |s.scenarios| - start
  {
    if start >= |s.scenarios| then None
    else if start != id && InFlight(s, start) then Some(start)
    else Blocking(s, id, start + 1)
  }

  function StepError(s: System, step: Step): Option<ScenarioError> {
    match step
    case Create(_, flag, _, _) =>
      (match flag
       case Missing => Some(FlagNotFound)
       case Resolved => Some(FlagNotOpen)
       case Open(_) => None)
    case Regenerate(id, flag, generated, referencesKnown) =>
      if id >= |s.scenarios| then Some(ScenarioNotFound)
      else if s.scenarios[id].status != Draft then Some(BadTransition)
      else if s.scenarios[id].sourceFlag.None? then Some(NoSourceFlag)
      else if flag.Missing? then Some(FlagNotFound)
      else if flag.Resolved? then Some(FlagNotOpen)
      else if generated.None? then Some(GenerationFailed)
      else if !referencesKnown then Some(UnknownReferences)
      else None
    case RegenerateNarrative(id, text) => NoteError(s, id, text)
    case RegenerateQuery(id, text) => NoteError(s, id, text)
    case UpdateGroundTruth(id, updates) =>
      if id >= |s.scenarios| then Some(ScenarioNotFound)
      else if s.scenarios[id].status != Draft && !MayEditBuilderNotes(s.scenarios[id], updates) then Some(BadTransition)
      else None
    case Approve(id) =>
      if TransitionError(s, id, Approved).Some? then TransitionError(s, id, Approved)
      else
        var errors := ApprovalErrors(s.scenarios[id].package, s.scenarios[id].tier, s.scenarios[id].cluster);
        if errors != [] then Some(NotApprovable(errors)) else None
    case Activate(id) =>
      if TransitionError(s, id, Active).Some? then TransitionError(s, id, Active)
      else
        var blocking := Blocking(s, id, 0);
        if blocking.Some? then Some(StillActive(blocking.value)) else None
    case Cancel(id) => TransitionError(s, id, Cancelled)
    case Chat(_, call) =>
      if call.DoOpen? && call.scenario >= |s.scenarios| then Some(ScenarioNotFound) else None
  }

  function NoteError(s: System, id: nat, text: Option<string>): Option<ScenarioError> {
    if id >= |s.scenarios| then Some(ScenarioNotFound)
    else if s.scenarios[id].status == Cancelled then Some(BadTransition)
    else if text.None? then Some(GenerationFailed)
    else None
  }

  function CancelledIn(s: System): set<nat> {
    set id: nat | id < |s.scenarios| && s.scenarios[id].status == Cancelled
  }

  function WithPackage(s: System, id: nat, package: Package): System
    requires id < |s.scenarios|
  {
    s.(scenarios := s.scenarios[id := s.scenarios[id].(package := package)])
  }

  function WithStatus(s: System, id: nat, status: Status): System
    requires id < |s.scenarios|
  {
    s.(scenarios := s.scenarios[id := s.scenarios[id].(status := status)])
  }

  /** A call that fails changes nothing. */
  function Next(s: System, step: Step): System {
    if StepError(s, step).Some? then s
    else match step
         case Create(flagId, flag, tier, cluster) =>
           s.(scenarios := s.scenarios + [Scenario(Draft, BuildGroundTruth(flag.facts), tier, cluster, Some(flagId))])
         case Regenerate(id, flag, generated, _) => WithPackage(s, id, Regenerated(flag.facts, generated.value))
         case RegenerateNarrative(id, text) =>
           WithPackage(s, id, s.scenarios[id].package["narrative" := Text(text.value)])
         case RegenerateQuery(id, text) =>
           WithPackage(s, id, s.scenarios[id].package["expected_query" := Text(text.value)])
         case UpdateGroundTruth(id, updates) => WithPackage(s, id, s.scenarios[id].package + updates)
         case Approve(id) => WithStatus(s, id, Approved)
         case Activate(id) => WithStatus(s, id, Active)
         case Cancel(id) => WithStatus(s, id, Cancelled)
         case Chat(users, call) =>
           s.(chat := Deadlines.Next(s.chat, Deadlines.Around(users, CancelledIn(s)), call))
  }

  function Run(s: System, steps: seq<Step>): System {
    if steps == [] then s else Next(Run(s, steps[..|steps| - 1]), steps[|steps| - 1])
  }

  const START := System([], Deadlines.Desk([], []))

  // ---- The service's statements ----------------------------------------------------------

  class ScenarioService {
    var scenarios: seq<Scenario>

    constructor ()
      ensures scenarios == START.scenarios
    {
      scenarios := [];
    }

    ghost function State(chat: Deadlines.Desk): System
      reads this
    {
      System(scenarios, chat)
    }

    method ValidateForApproval(p: Package, tier: Option<nat>, cluster: Option<nat>) returns (errors: seq<ApprovalError>)
      ensures errors == ApprovalErrors(p, tier, cluster)
      ensures errors == [] <==> Complete(p, tier, cluster)
    {
      errors := [];
      for i := 0 to |REQUIRED_FIELDS|
        invariant errors == FieldErrors(p, REQUIRED_FIELDS[..i])
      {
        var name := REQUIRED_FIELDS[i];
        if !FieldOk(name, Get(p, name)) {
          errors := errors + [FieldMissing(name)];
        }
        assert REQUIRED_FIELDS[..i + 1][..i] == REQUIRED_FIELDS[..i];
      }
      assert REQUIRED_FIELDS[..|REQUIRED_FIELDS|] == REQUIRED_FIELDS;
      if tier.None? {
        errors := errors + [TierMissing];
      }
      if cluster.None? {
        errors := errors + [ClusterMissing];
      }
      GateOpensIffComplete(p, tier, cluster);
    }

    method EditGroundTruth(id: nat, updates: Package, ghost chat: Deadlines.Desk) returns (error: Option<ScenarioError>)
      modifies this
      ensures error == StepError(old(State(chat)), UpdateGroundTruth(id, updates))
      ensures State(chat) == Next(old(State(chat)), UpdateGroundTruth(id, updates))
    {
      if id >= |scenarios| {
        return Some(ScenarioNotFound);
      }
      if scenarios[id].status != Draft && !MayEditBuilderNotes(scenarios[id], updates) {
        return Some(BadTransition);
      }
      scenarios := scenarios[id := scenarios[id].(package := scenarios[id].package + updates)];
      error := None;
    }

    method RegenerateScenario(id: nat, flag: FlagState, generated: Option<Narrative>, referencesKnown: bool, ghost chat: Deadlines.Desk)
      returns (error: Option<ScenarioError>)
      modifies this
      ensures error == StepError(old(State(chat)), Regenerate(id, flag, generated, referencesKnown))
      ensures State(chat) == Next(old(State(chat)), Regenerate(id, flag, generated, referencesKnown))
    {
      if id >= |scenarios| {
        return Some(ScenarioNotFound);
      }
      if scenarios[id].status != Draft {
        return Some(BadTransition);
      }
      if scenarios[id].sourceFlag.None? {
        return Some(NoSourceFlag);
      }
      if flag.Missing? {
        return Some(FlagNotFound);
      }
      if flag.Resolved? {
        return Some(FlagNotOpen);
      }
      if generated.None? {
        return Some(GenerationFailed);
      }
      if !referencesKnown {
        return Some(UnknownReferences);
      }
      scenarios := scenarios[id := scenarios[id].(package := Regenerated(flag.facts, generated.value))];
      error := None;
    }

    method CreateFromExceptionFlag(flagId: nat, flag: FlagState, tier: Option<nat>, cluster: Option<nat>, ghost chat: Deadlines.Desk)
      returns (error: Option<ScenarioError>)
      modifies this
      ensures error == StepError(old(State(chat)), Create(flagId, flag, tier, cluster))
      ensures State(chat) == Next(old(State(chat)), Create(flagId, flag, tier, cluster))
    {
      if flag.Missing? {
        return Some(FlagNotFound);
      }
      if flag.Resolved? {
        return Some(FlagNotOpen);
      }
      scenarios := scenarios + [Scenario(Draft, BuildGroundTruth(flag.facts), tier, cluster, Some(flagId))];
      error := None;
    }

    /** regenerate_narrative and regenerate_expected_query differ in the key they write. */
    method RegenerateNote(id: nat, isQuery: bool, text: Option<string>, ghost chat: Deadlines.Desk)
      returns (error: Option<ScenarioError>)
      modifies this
      ensures error == NoteError(old(State(chat)), id, text)
      ensures State(chat) ==
              Next(old(State(chat)), if isQuery then RegenerateQuery(id, text) else RegenerateNarrative(id, text))
    {
      if id >= |scenarios| {
        return Some(ScenarioNotFound);
      }
      if scenarios[id].status == Cancelled {
        return Some(BadTransition);
      }
      if text.None? {
        return Some(GenerationFailed);
      }
      var key := if isQuery then "expected_query" else "narrative";
      scenarios := scenarios[id := scenarios[id].(package := scenarios[id].package[key := Text(text.value)])];
      error := None;
    }

    method ApproveScenario(id: nat, ghost chat: Deadlines.Desk) returns (error: Option<ScenarioError>)
      modifies this
      ensures error == StepError(old(State(chat)), Approve(id))
      ensures State(chat) == Next(old(State(chat)), Approve(id))
    {
      if id >= |scenarios| {
        return Some(ScenarioNotFound);
      }
      if (scenarios[id].status, Approved) !in VALID_TRANSITIONS {
        return Some(BadTransition);
      }
      var errors := ValidateForApproval(scenarios[id].package, scenarios[id].tier, scenarios[id].cluster);
      if errors != [] {
        return Some(NotApprovable(errors));
      }
      scenarios := scenarios[id := scenarios[id].(status := Approved)];
      error := None;
    }

    method ActivateScenario(id: nat, chat: Deadlines.Desk) returns (error: Option<ScenarioError>)
      modifies this
      ensures error == StepError(old(State(chat)), Activate(id))
      ensures State(chat) == Next(old(State(chat)), Activate(id))
    {
      if id >= |scenarios| {
        return Some(ScenarioNotFound);
      }
      if (scenarios[id].status, Active) !in VALID_TRANSITIONS {
        return Some(BadTransition);
      }
      var other := 0;
      while other < |scenarios|
        invariant other <= |scenarios|
        invariant Blocking(State(chat), id, 0) == Blocking(State(chat), id, other)
      {
        if other != id && scenarios[other].status == Active && !Deadlines.HasCompleted(chat, other) {
          return Some(StillActive(other));
        }
        other := other + 1;
      }
      scenarios := scenarios[id := scenarios[id].(status := Active)];
      error := None;
    }

    method CancelScenario(id: nat, ghost chat: Deadlines.Desk) returns (error: Option<ScenarioError>)
      modifies this
      ensures error == StepError(old(State(chat)), Cancel(id))
      ensures State(chat) == Next(old(State(chat)), Cancel(id))
    {
      if id >= |scenarios| {
        return Some(ScenarioNotFound);
      }
      if (scenarios[id].status, Cancelled) !in VALID_TRANSITIONS {
        return Some(BadTransition);
      }
      scenarios := scenarios[id := scenarios[id].(status := Cancelled)];
      error := None;
    }
  }

  // ---- What an edit leaves --------------------------------------------------------------------

  /** Only the package of one scenario differs. */
  predicate OnlyPackage(before: System, after: System, id: nat)
    requires id < |before.scenarios|
  {
    && id < |after.scenarios|
    && after == before.(scenarios := before.scenarios[id := before.scenarios[id].(package := after.scenarios[id].package)])
  }

  /** A field nobody wrote reads as before, and one that was written as written. */
  lemma EditsReadBack(s: System, id: nat, updates: Package, text: string, name: string)
    requires id < |s.scenarios|
    ensures var call := UpdateGroundTruth(id, updates); var r := Next(s, call);
            StepError(s, call).None? ==>
              && OnlyPackage(s, r, id)
              && Get(r.scenarios[id].package, name) == if name in updates then updates[name] else Get(s.scenarios[id].package, name)
    ensures var call := RegenerateNarrative(id, Some(text)); var r := Next(s, call);
            StepError(s, call).None? ==>
              && OnlyPackage(s, r, id)
              && Get(r.scenarios[id].package, name) == if name == "narrative" then Text(text) else Get(s.scenarios[id].package, name)
    ensures var call := RegenerateQuery(id, Some(text)); var r := Next(s, call);
            StepError(s, call).None? ==>
              && OnlyPackage(s, r, id)
              && Get(r.scenarios[id].package, name) == if name == "expected_query" then Text(text) else Get(s.scenarios[id].package, name)
  {
  }

  lemma SkeletonIsIncomplete(facts: Facts, tier: Option<nat>, cluster: Option<nat>)
    ensures !Complete(BuildGroundTruth(facts), tier, cluster)
    ensures Get(BuildGroundTruth(facts), "known_cause") == Text(facts.cause)
    ensures Get(BuildGroundTruth(facts), "evidence") == Object(facts.evidence)
  {
    AllRequired();
    assert !FieldOk("distractors", BuildGroundTruth(facts)["distractors"]);
  }

  /** A new scenario is the flag's draft, and cannot be approved as it stands. */
  lemma DraftNeedsWork(s: System, flagId: nat, facts: Facts, tier: Option<nat>, cluster: Option<nat>)
    ensures var r := Next(s, Create(flagId, Open(facts), tier, cluster));
            && |r.scenarios| == |s.scenarios| + 1 && r.scenarios[..|s.scenarios|] == s.scenarios && r.chat == s.chat
            && var draft := r.scenarios[|s.scenarios|];
               && draft.status == Draft && draft.sourceFlag == Some(flagId) && draft.tier == tier && draft.cluster == cluster
               && Get(draft.package, "known_cause") == Text(facts.cause) && Get(draft.package, "evidence") == Object(facts.evidence)
               && StepError(r, Approve(|s.scenarios|)).Some?
  {
    SkeletonIsIncomplete(facts, tier, cluster);
    GateOpensIffComplete(BuildGroundTruth(facts), tier, cluster);
  }

  // ---- The gate cannot be bypassed -----------------------------------------------------------

  predicate PastTheGate(s: Scenario) {
    s.status == Approved || s.status == Active
  }

  predicate GateHeld(s: System) {
    forall id :: 0 <= id < |s.scenarios| && PastTheGate(s.scenarios[id]) ==>
      Complete(s.scenarios[id].package, s.scenarios[id].tier, s.scenarios[id].cluster)
  }

  /** Only graded content decides. */
  lemma CompleteIsAboutGradedContent(p: Package, q: Package, tier: Option<nat>, cluster: Option<nat>)
    requires Graded(p) == Graded(q) && Complete(p, tier, cluster)
    ensures Complete(q, tier, cluster)
  {
    forall name | name in REQUIRED_FIELDS ensures name in q && FieldOk(name, q[name]) {
      assert name !in BUILDER_NOTE_KEYS;
      assert name in Graded(p);
      assert Graded(p)[name] == p[name] && Graded(q)[name] == q[name];
    }
  }

  lemma NotesLeaveGradedContent(p: Package, updates: Package)
    requires updates.Keys <= BUILDER_NOTE_KEYS
    ensures Graded(p + updates) == Graded(p)
  {
  }

  /** b is a later state of a scenario that had left the draft stage as a. */
  predicate Frozen(a: Scenario, b: Scenario) {
    && Graded(b.package) == Graded(a.package) && b.tier == a.tier && b.cluster == a.cluster
    && b.status != Draft && (a.status == Cancelled ==> b == a)
  }

  lemma StepFreezes(s: System, step: Step, id: nat)
    requires id < |s.scenarios| && s.scenarios[id].status != Draft
    ensures |s.scenarios| <= |Next(s, step).scenarios|
    ensures Frozen(s.scenarios[id], Next(s, step).scenarios[id])
  {
    if StepError(s, step).None? {
      match step
      case UpdateGroundTruth(_, updates) =>
        if step.id == id {
          NotesLeaveGradedContent(s.scenarios[id].package, updates);
        }
      case RegenerateNarrative(_, text) =>
        NotesLeaveGradedContent(s.scenarios[id].package, map["narrative" := Text(text.value)]);
        assert s.scenarios[id].package + map["narrative" := Text(text.value)] == s.scenarios[id].package["narrative" := Text(text.value)];
      case RegenerateQuery(_, text) =>
        NotesLeaveGradedContent(s.scenarios[id].package, map["expected_query" := Text(text.value)]);
        assert s.scenarios[id].package + map["expected_query" := Text(text.value)] == s.scenarios[id].package["expected_query" := Text(text.value)];
      case _ =>
    }
  }

  /** Once approved, no run changes the graded content, the targeting, or returns
      the scenario to draft; a cancelled scenario never changes at all. */
  lemma {:induction false} GradedContentIsFrozen(s: System, steps: seq<Step>, id: nat)
    requires id < |s.scenarios| && s.scenarios[id].status != Draft
    ensures |s.scenarios| <= |Run(s, steps).scenarios|
    ensures Frozen(s.scenarios[id], Run(s, steps).scenarios[id])
  {
    if steps != [] {
      GradedContentIsFrozen(s, steps[..|steps| - 1], id);
      StepFreezes(Run(s, steps[..|steps| - 1]), steps[|steps| - 1], id);
    }
  }

  lemma StepHoldsGate(s: System, step: Step)
    requires GateHeld(s)
    ensures GateHeld(Next(s, step))
  {
    var r := Next(s, step);
    forall id: nat | id < |r.scenarios| && PastTheGate(r.scenarios[id])
      ensures Complete(r.scenarios[id].package, r.scenarios[id].tier, r.scenarios[id].cluster)
    {
      assert id < |s.scenarios|;
      if s.scenarios[id].status != Draft {
        StepFreezes(s, step, id);
        CompleteIsAboutGradedContent(s.scenarios[id].package, r.scenarios[id].package, r.scenarios[id].tier, r.scenarios[id].cluster);
      } else {
        GateOpensIffComplete(s.scenarios[id].package, s.scenarios[id].tier, s.scenarios[id].cluster);
      }
    }
  }

  /** In every run an approved or active scenario's package passes validation. */
  lemma {:induction false} GateIsNeverBypassed(steps: seq<Step>)
    ensures GateHeld(Run(START, steps))
  {
    if steps != [] {
      GateIsNeverBypassed(steps[..|steps| - 1]);
      StepHoldsGate(Run(START, steps[..|steps| - 1]), steps[|steps| - 1]);
    }
  }

  // ---- One scenario at a time -----------------------------------------------------------------

  predicate OneInFlight(s: System) {
    forall i, j :: 0 <= i < j < |s.scenarios| ==> !(InFlight(s, i) && InFlight(s, j))
  }

  lemma CompletedScenarioStays(d: Deadlines.Desk, around: Deadlines.Around, call: Deadlines.Step, scenario: nat)
    requires Deadlines.HasCompleted(d, scenario)
    ensures Deadlines.HasCompleted(Deadlines.Next(d, around, call), scenario)
  {
    var t :| 0 <= t < |d.threads| && d.threads[t].completed && d.threads[t].scenario == scenario;
    Deadlines.CompletedStays(d, around, call, t);
  }

  /** Nothing but an activation puts a scenario in flight. */
  lemma OnlyActivationStarts(s: System, step: Step, id: nat)
    requires InFlight(Next(s, step), id)
    ensures InFlight(s, id) || (step == Activate(id) && StepError(s, step).None?)
  {
    if StepError(s, step).None? && step.Chat? && Deadlines.HasCompleted(s.chat, id) {
      CompletedScenarioStays(s.chat, Deadlines.Around(step.users, CancelledIn(s)), step.call, id);
    }
  }

  lemma StepKeepsOneInFlight(s: System, step: Step)
    requires OneInFlight(s)
    ensures OneInFlight(Next(s, step))
  {
    var r := Next(s, step);
    forall i, j | 0 <= i < j < |r.scenarios| ensures !(InFlight(r, i) && InFlight(r, j)) {
      if InFlight(r, i) && InFlight(r, j) {
        OnlyActivationStarts(s, step, i);
        OnlyActivationStarts(s, step, j);
        assert false;
      }
    }
  }

  /** In every run at most one active scenario has no completed thread. */
  lemma {:induction false} AtMostOneInFlight(steps: seq<Step>)
    ensures OneInFlight(Run(START, steps))
  {
    if steps != [] {
      AtMostOneInFlight(steps[..|steps| - 1]);
      StepKeepsOneInFlight(Run(START, steps[..|steps| - 1]), steps[|steps| - 1]);
    }
  }

  /** Approval succeeds exactly for a draft with a complete package, cancellation
      for anything not cancelled, and an edit for a draft, or for Builder notes
      alone on anything not cancelled. */
  lemma TransitionsIff(s: System, id: nat, updates: Package)
    requires id < |s.scenarios|
    ensures StepError(s, Approve(id)).None? <==>
      s.scenarios[id].status == Draft && Complete(s.scenarios[id].package, s.scenarios[id].tier, s.scenarios[id].cluster)
    ensures StepError(s, Cancel(id)).None? <==> s.scenarios[id].status != Cancelled
    ensures StepError(s, UpdateGroundTruth(id, updates)).None? <==>
      || s.scenarios[id].status == Draft
      || (s.scenarios[id].status != Cancelled && updates != map[] && updates.Keys <= {"narrative", "expected_query"})
  {
    GateOpensIffComplete(s.scenarios[id].package, s.scenarios[id].tier, s.scenarios[id].cluster);
  }

  /** An approved scenario can be activated exactly when no other one is in flight. */
  lemma ActivationIffClear(s: System, id: nat)
    requires id < |s.scenarios|
    ensures StepError(s, Activate(id)).None? <==>
      s.scenarios[id].status == Approved && forall other: nat :: other != id ==> !InFlight(s, other)
  {
    if Blocking(s, id, 0).Some? {
      assert InFlight(s, Blocking(s, id, 0).value);
    }
  }

  // ---- Cancelled scenarios go quiet ---------------------------------------------------------------

  predicate Writes(before: System, after: System, e: Deadlines.Event) {
    |before.chat.log| <= |after.chat.log| && e in after.chat.log[|before.chat.log|..]
  }

  lemma StepIsQuiet(s: System, step: Step, id: nat, e: Deadlines.Event)
    requires id < |s.scenarios| && s.scenarios[id].status == Cancelled
    ensures Writes(s, Next(s, step), e) && e.Notice? ==>
      e.thread < |s.chat.threads| && s.chat.threads[e.thread].scenario != id
  {
    if Writes(s, Next(s, step), e) && e.Notice? {
      var around := Deadlines.Around(step.users, CancelledIn(s));
      Deadlines.SweepWritesWhatIsDue(s.chat, around, step.call.now, step.call.within);
      assert Deadlines.IsDue(s.chat, around, step.call.now, step.call.within, e);
    }
  }

  /** Once a scenario is cancelled, no step of any run writes a notice on its threads. */
  lemma CancelledGoesQuiet(s: System, steps: seq<Step>, step: Step, id: nat, e: Deadlines.Event)
    requires id < |s.scenarios| && s.scenarios[id].status == Cancelled
    ensures var before := Run(s, steps);
            Writes(before, Next(before, step), e) && e.Notice? ==>
              e.thread < |before.chat.threads| && before.chat.threads[e.thread].scenario != id
  {
    GradedContentIsFrozen(s, steps, id);
    StepIsQuiet(Run(s, steps), step, id, e);
  }
}
