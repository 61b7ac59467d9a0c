/** The fields of work documents and their labels (src/work_documents.rs). */
module WorkFields {
  import opened Wrappers
  import opened HeadedMarkdown

  datatype SubjectField = TaskId | ProbeId | SpecId | IncidentId | LearningRequestId | Title | Summary | Request
  datatype LineageField =
    | RootIdeaId | RootSpecId | RootIntakeKind | RootIntakeId | ParentTaskId
    | ParentSpecId | SourceType | SourceId | SourceTaskId | SourceSpecId
  datatype FailureField =
    | SourceStage | SourcePlane | FailureClass | Severity
    | NeedsPlanning | TriggerReason | ConsultantDecision
  datatype AimField = StatusHint | RequestedAction | TargetSkillId | TargetStage | TriggerMetadata
  datatype StampField = CreatedAt | CreatedBy | UpdatedAt | OpenedAt | OpenedBy
  datatype PlanField = DependsOn | Blocks | Tags | TargetPaths | Acceptance | RequiredChecks | References | Risk
  datatype DesignField =
    | Goals | NonGoals | Scope | Constraints | Assumptions
    | Risks | RiskNotes | Entrypoints | RequiredSkills | DecompositionHints
  datatype EvidenceField = ObservedSymptoms | FailedAttempts | EvidencePaths | RelatedRunIds | RelatedStageResults
  datatype LearningField = SourceRefs | PreferredOutputPaths | OriginatingRunIds | ArtifactPaths

  /** Scalars first, then lists. */
  datatype Field =
    | Subject(subject: SubjectField)
    | Lineage(lineage: LineageField)
    | Failure(failure: FailureField)
    | Aim(aim: AimField)
    | Stamp(stamp: StampField)
    | Plan(plan: PlanField)
    | Design(design: DesignField)
    | Evidence(evidence: EvidenceField)
    | Learning(learning: LearningField)

  function SubjectLabel(f: SubjectField): string {
    match f
    case TaskId => "Task-ID" case ProbeId => "Probe-ID" case SpecId => "Spec-ID"
    case IncidentId => "Incident-ID" case LearningRequestId => "Learning-Request-ID" case Title => "Title"
    case Summary => "Summary" case Request => "Request"
  }

  function LineageLabel(f: LineageField): string {
    match f
    case RootIdeaId => "Root-Idea-ID" case RootSpecId => "Root-Spec-ID" case RootIntakeKind => "Root-Intake-Kind"
    case RootIntakeId => "Root-Intake-ID" case ParentTaskId => "Parent-Task-ID" case ParentSpecId => "Parent-Spec-ID"
    case SourceType => "Source-Type" case SourceId => "Source-ID" case SourceTaskId => "Source-Task-ID"
    case SourceSpecId => "Source-Spec-ID"
  }

  function FailureLabel(f: FailureField): string {
    match f
    case SourceStage => "Source-Stage" case SourcePlane => "Source-Plane" case FailureClass => "Failure-Class"
    case Severity => "Severity" case NeedsPlanning => "Needs-Planning" case TriggerReason => "Trigger-Reason"
    case ConsultantDecision => "Consultant-Decision"
  }

  function AimLabel(f: AimField): string {
    match f
    case StatusHint => "Status-Hint" case RequestedAction => "Requested-Action" case TargetSkillId => "Target-Skill-ID"
    case TargetStage => "Target-Stage" case TriggerMetadata => "Trigger-Metadata"
  }

  function StampLabel(f: StampField): string {
    match f
    case CreatedAt => "Created-At" case CreatedBy => "Created-By" case UpdatedAt => "Updated-At"
    case OpenedAt => "Opened-At" case OpenedBy => "Opened-By"
  }

  function PlanLabel(f: PlanField): string {
    match f
    case DependsOn => "Depends-On" case Blocks => "Blocks" case Tags => "Tags"
    case TargetPaths => "Target-Paths" case Acceptance => "Acceptance" case RequiredChecks => "Required-Checks"
    case References => "References" case Risk => "Risk"
  }

  function DesignLabel(f: DesignField): string {
    match f
    case Goals => "Goals" case NonGoals => "Non-Goals" case Scope => "Scope"
    case Constraints => "Constraints" case Assumptions => "Assumptions" case Risks => "Risks"
    case RiskNotes => "Risk-Notes" case Entrypoints => "Entrypoints" case RequiredSkills => "Required-Skills"
    case DecompositionHints => "Decomposition-Hints"
  }

  function EvidenceLabel(f: EvidenceField): string {
    match f
    case ObservedSymptoms => "Observed-Symptoms" case FailedAttempts => "Failed-Attempts"
    case EvidencePaths => "Evidence-Paths"
    case RelatedRunIds => "Related-Run-IDs" case RelatedStageResults => "Related-Stage-Results"
  }

  function LearningLabel(f: LearningField): string {
    match f
    case SourceRefs => "Source-Refs" case PreferredOutputPaths => "Preferred-Output-Paths"
    case OriginatingRunIds => "Originating-Run-IDs"
    case ArtifactPaths => "Artifact-Paths"
  }

  function Label(f: Field): string {
    match f
    case Subject(x) => SubjectLabel(x)
    case Lineage(x) => LineageLabel(x)
    case Failure(x) => FailureLabel(x)
    case Aim(x) => AimLabel(x)
    case Stamp(x) => StampLabel(x)
    case Plan(x) => PlanLabel(x)
    case Design(x) => DesignLabel(x)
    case Evidence(x) => EvidenceLabel(x)
    case Learning(x) => LearningLabel(x)
  }

  predicate IsList(f: Field) { f.Plan? || f.Design? || f.Evidence? || f.Learning? }

  /** A lookup by a number that no two labels share: a name is then compared with one label, and no proof
      compares every pair of them. The weights are chosen so that the numbers differ, and
      `FieldWithKey` lists `Key(Label(f))` for every field. */
  function Key(name: string): int {
    if |name| < 4 then 0
    else |name| + 3 * name[0] as int + name[|name| - 1] as int + 10 * name[|name| - 4] as int
  }

  function FieldWithKey(key: int): Option<Field> {
    match key
    case 1397 => Some(Subject(TaskId)) case 1326 => Some(Subject(ProbeId))
    case 1314 => Some(Subject(SpecId)) case 1458 => Some(Subject(IncidentId))
    case 1475 => Some(Subject(LearningRequestId)) case 1408 => Some(Subject(Title))
    case 1467 => Some(Subject(Summary)) case 1539 => Some(Subject(Request))
    case 1296 => Some(Lineage(RootIdeaId)) case 1316 => Some(Lineage(RootSpecId))
    case 1112 => Some(Lineage(RootIntakeKind)) case 1338 => Some(Lineage(RootIntakeId))
    case 1392 => Some(Lineage(ParentTaskId)) case 1312 => Some(Lineage(ParentSpecId))
    case 1201 => Some(Lineage(SourceType)) case 1336 => Some(Lineage(SourceId))
    case 1401 => Some(Lineage(SourceTaskId)) case 1321 => Some(Lineage(SourceSpecId))
    case 1522 => Some(Failure(SourceStage)) case 1442 => Some(Failure(SourcePlane))
    case 1418 => Some(Failure(FailureClass)) case 1518 => Some(Failure(Severity))
    case 1451 => Some(Failure(NeedsPlanning)) case 1346 => Some(Failure(TriggerReason))
    case 1480 => Some(Failure(ConsultantDecision)) case 1096 => Some(Aim(StatusHint))
    case 1532 => Some(Aim(RequestedAction)) case 1415 => Some(Aim(TargetSkillId))
    case 1525 => Some(Aim(TargetStage)) case 1365 => Some(Aim(TriggerMetadata))
    case 1327 => Some(Stamp(CreatedAt)) case 1332 => Some(Stamp(CreatedBy))
    case 1381 => Some(Stamp(UpdatedAt)) case 1362 => Some(Stamp(OpenedAt))
    case 1367 => Some(Stamp(OpenedBy)) case 1474 => Some(Plan(DependsOn))
    case 1429 => Some(Plan(Blocks)) case 1211 => Some(Plan(Tags))
    case 1349 => Some(Plan(TargetPaths)) case 1276 => Some(Plan(Acceptance))
    case 1386 => Some(Plan(RequiredChecks)) case 1471 => Some(Plan(References))
    case 1177 => Some(Plan(Risk)) case 1443 => Some(Design(Goals))
    case 1468 => Some(Design(NonGoals)) case 1345 => Some(Design(Scope))
    case 1377 => Some(Design(Constraints)) case 1371 => Some(Design(Assumptions))
    case 1416 => Some(Design(Risks)) case 1481 => Some(Design(RiskNotes))
    case 1383 => Some(Design(Entrypoints)) case 1426 => Some(Design(RequiredSkills))
    case 1388 => Some(Design(DecompositionHints)) case 1529 => Some(Evidence(ObservedSymptoms))
    case 1430 => Some(Evidence(FailedAttempts)) case 1306 => Some(Evidence(EvidencePaths))
    case 826 => Some(Evidence(RelatedRunIds)) case 1552 => Some(Evidence(RelatedStageResults))
    case 1195 => Some(Learning(SourceRefs)) case 1347 => Some(Learning(PreferredOutputPaths))
    case 821 => Some(Learning(OriginatingRunIds)) case 1294 => Some(Learning(ArtifactPaths))
    case _ => None
  }

  /** The field a label names, compared with the one label it could be. */
  function FieldByLabel(name: string): (f: Option<Field>)
    ensures f.Some? ==> Label(f.value) == name
  {
    var candidate :- FieldWithKey(Key(name));
    if Label(candidate) == name then Some(candidate) else None
  }

  lemma SubjectLabels(f: SubjectField)
    ensures IsLabel(SubjectLabel(f))
  {}

  lemma SubjectKeys(f: SubjectField)
    ensures FieldWithKey(Key(SubjectLabel(f))) == Some(Subject(f))
  {}

  lemma LineageLabels(f: LineageField)
    ensures IsLabel(LineageLabel(f))
  {}

  lemma LineageKeys(f: LineageField)
    ensures FieldWithKey(Key(LineageLabel(f))) == Some(Lineage(f))
  {}

  lemma FailureLabels(f: FailureField)
    ensures IsLabel(FailureLabel(f))
  {}

  lemma FailureKeys(f: FailureField)
    ensures FieldWithKey(Key(FailureLabel(f))) == Some(Failure(f))
  {}

  lemma AimLabels(f: AimField)
    ensures IsLabel(AimLabel(f))
  {}

  lemma AimKeys(f: AimField)
    ensures FieldWithKey(Key(AimLabel(f))) == Some(Aim(f))
  {}

  lemma StampLabels(f: StampField)
    ensures IsLabel(StampLabel(f))
  {}

  lemma StampKeys(f: StampField)
    ensures FieldWithKey(Key(StampLabel(f))) == Some(Stamp(f))
  {}

  lemma PlanLabels(f: PlanField)
    ensures IsLabel(PlanLabel(f))
  {}

  lemma PlanKeys(f: PlanField)
    ensures FieldWithKey(Key(PlanLabel(f))) == Some(Plan(f))
  {}

  lemma DesignLabels(f: DesignField)
    ensures IsLabel(DesignLabel(f))
  {}

  lemma DesignKeys(f: DesignField)
    ensures FieldWithKey(Key(DesignLabel(f))) == Some(Design(f))
  {}

  lemma EvidenceLabels(f: EvidenceField)
    ensures IsLabel(EvidenceLabel(f))
  {}

  lemma EvidenceKeys(f: EvidenceField)
    ensures FieldWithKey(Key(EvidenceLabel(f))) == Some(Evidence(f))
  {}

  lemma LearningLabels(f: LearningField)
    ensures IsLabel(LearningLabel(f))
  {}

  lemma LearningKeys(f: LearningField)
    ensures FieldWithKey(Key(LearningLabel(f))) == Some(Learning(f))
  {}

  /** Every label is well formed and names its own field. */
  lemma LabelsAreKnown(f: Field)
    ensures IsLabel(Label(f)) && FieldByLabel(Label(f)) == Some(f)
  {
    match f {
      case Subject(x) => SubjectLabels(x); SubjectKeys(x);
      case Lineage(x) => LineageLabels(x); LineageKeys(x);
      case Failure(x) => FailureLabels(x); FailureKeys(x);
      case Aim(x) => AimLabels(x); AimKeys(x);
      case Stamp(x) => StampLabels(x); StampKeys(x);
      case Plan(x) => PlanLabels(x); PlanKeys(x);
      case Design(x) => DesignLabels(x); DesignKeys(x);
      case Evidence(x) => EvidenceLabels(x); EvidenceKeys(x);
      case Learning(x) => LearningLabels(x); LearningKeys(x);
    }
  }
}
