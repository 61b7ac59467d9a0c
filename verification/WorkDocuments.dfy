/** The five kinds of work document of src/work_documents.rs. */
module WorkDocuments {
  import opened Sequences
  import opened Wrappers
  import opened Text
  import opened HeadedMarkdown
  import opened DocumentSchema
  import opened WorkFields

  datatype Kind = Task | Probe | Spec | Incident | LearningRequest

  datatype WorkDocument = WorkDocument(kind: Kind, fields: Fields<Field>)

  /** What other components decide: which texts are RFC 3339 timestamps, the compact text of the JSON
      object a text denotes, and the contract checks of a kind of document. */
  datatype Externals = Externals(
    isTimestamp: string -> bool,
    objectText: string -> Option<string>,
    accepts: (Kind, Fields<Field>) -> bool)

  /** Serialized JSON is one trimmed line, and parses to what it was made from. */
  ghost predicate ValidExternals(ext: Externals) {
    forall raw :: ext.objectText(raw).Some? ==>
      Clean(ext.objectText(raw).value) && ext.objectText(ext.objectText(raw).value) == ext.objectText(raw)
  }

  datatype WorkError =
    | Markdown(error: Error<Field>)
    | BadField(slotError: SlotError<Field>)
    | NoIdentifier
    | WrongKind(actual: Kind)
    | TitleMismatch
    | ContractViolated

  predicate IsPlaceholder(f: Field, item: string) {
    f in {Plan(DependsOn), Plan(Blocks)} && Lower(Trim(item)) in {"none", "n/a", "-"}
  }

  const WORK: Table<Field> := Table(Label, IsList, FieldByLabel, IsPlaceholder)

  // ---------------------------------------------------------------- the schemas, in rendering order

  function Must(f: Field): Slot<Field> { Slot(f, Required, AnyText) }

  function May(f: Field): Slot<Field> { Slot(f, Optional, AnyText) }

  function MustBe(f: Field, token: string -> bool): Slot<Field> { Slot(f, Required, OneOf(token)) }

  function MayBe(f: Field, token: string -> bool): Slot<Field> { Slot(f, Optional, OneOf(token)) }

  function MustStamp(ext: Externals, f: StampField): Slot<Field> {
    Slot(Stamp(f), Required, OneOf(ext.isTimestamp))
  }

  function MayStamp(ext: Externals, f: StampField): Slot<Field> {
    Slot(Stamp(f), Optional, OneOf(ext.isTimestamp))
  }

  predicate IsStatusHint(text: string) {
    text in {"queued", "active", "blocked", "done"}
  }

  predicate IsIntakeKind(text: string) {
    text in {"idea", "probe", "manual", "incident", "derived_spec"}
  }

  predicate IsSourceType(text: string) {
    text in {"idea", "incident", "manual", "derived_spec", "probe"}
  }

  predicate IsSeverity(text: string) {
    text in {"low", "medium", "high", "critical"}
  }

  predicate IsDecision(text: string) {
    text in {"needs_planning", "blocked"}
  }

  predicate IsAction(text: string) {
    text in {"create", "improve", "promote", "export", "install"}
  }

  predicate IsPlane(text: string) {
    text in {"execution", "planning", "learning"}
  }

  predicate IsLearningStage(text: string) {
    text in {"analyst", "professor", "curator", "librarian"}
  }

  predicate IsStage(text: string) {
    text in {
      "builder", "integrator", "checker", "fixer", "doublechecker", "updater", "troubleshooter",
      "consultant", "recon", "planner", "manager", "manager_blueprint", "contractor_blueprint",
      "evaluator_blueprint", "mechanic", "mechanic_blueprint", "auditor", "arbiter", "analyst",
      "professor", "curator", "librarian"}
  }

  predicate IsFlag(text: string) {
    text in {"true", "false"}
  }

  function TaskScalars(ext: Externals): seq<Slot<Field>> {
    [Must(Subject(TaskId)), Must(Subject(Title)), May(Subject(Summary)),
     May(Lineage(RootIdeaId)), May(Lineage(RootSpecId)), MayBe(Lineage(RootIntakeKind), IsIntakeKind),
     May(Lineage(RootIntakeId)), May(Subject(SpecId)), May(Lineage(ParentTaskId)), May(Subject(IncidentId)),
     MayBe(Aim(StatusHint), IsStatusHint),
     MustStamp(ext, CreatedAt), Must(Stamp(CreatedBy)), MayStamp(ext, UpdatedAt)]
  }

  function ProbeScalars(ext: Externals): seq<Slot<Field>> {
    [Must(Subject(ProbeId)), Must(Subject(Title)), May(Subject(Summary)), Must(Subject(Request)),
     MayBe(Aim(StatusHint), IsStatusHint),
     MustStamp(ext, CreatedAt), Must(Stamp(CreatedBy)), MayStamp(ext, UpdatedAt)]
  }

  function SpecScalars(ext: Externals): seq<Slot<Field>> {
    [Must(Subject(SpecId)), Must(Subject(Title)), Must(Subject(Summary)),
     MustBe(Lineage(SourceType), IsSourceType), May(Lineage(SourceId)), May(Lineage(ParentSpecId)),
     May(Lineage(RootIdeaId)), May(Lineage(RootSpecId)), MayBe(Lineage(RootIntakeKind), IsIntakeKind),
     May(Lineage(RootIntakeId)),
     MustStamp(ext, CreatedAt), Must(Stamp(CreatedBy)), MayStamp(ext, UpdatedAt)]
  }

  function IncidentScalars(ext: Externals): seq<Slot<Field>> {
    [Must(Subject(IncidentId)), Must(Subject(Title)), Must(Subject(Summary)),
     May(Lineage(RootIdeaId)), May(Lineage(RootSpecId)), MayBe(Lineage(RootIntakeKind), IsIntakeKind),
     May(Lineage(RootIntakeId)), May(Lineage(SourceTaskId)), May(Lineage(SourceSpecId)),
     MustBe(Failure(SourceStage), IsStage), MustBe(Failure(SourcePlane), IsPlane), Must(Failure(FailureClass)),
     Slot(Failure(Severity), Hidden("medium"), OneOf(IsSeverity)),
     Slot(Failure(NeedsPlanning), Hidden("true"), OneOf(IsFlag)),
     Must(Failure(TriggerReason)), MustBe(Failure(ConsultantDecision), IsDecision),
     MustStamp(ext, OpenedAt), Must(Stamp(OpenedBy)), MayStamp(ext, UpdatedAt)]
  }

  function LearningRequestScalars(ext: Externals): seq<Slot<Field>> {
    [Must(Subject(LearningRequestId)), Must(Subject(Title)), May(Subject(Summary)),
     MustBe(Aim(RequestedAction), IsAction), May(Aim(TargetSkillId)), MayBe(Aim(TargetStage), IsLearningStage),
     Slot(Aim(TriggerMetadata), Hidden("{}"), ext.objectText),
     MustStamp(ext, CreatedAt), Must(Stamp(CreatedBy)), MayStamp(ext, UpdatedAt)]
  }

  function Scalars(ext: Externals, kind: Kind): seq<Slot<Field>> {
    match kind
    case Task => TaskScalars(ext)
    case Probe => ProbeScalars(ext)
    case Spec => SpecScalars(ext)
    case Incident => IncidentScalars(ext)
    case LearningRequest => LearningRequestScalars(ext)
  }

  function Lists(kind: Kind): seq<Slot<Field>> {
    match kind
    case Task =>
      [May(Plan(DependsOn)), May(Plan(Blocks)), May(Plan(Tags)), Must(Plan(TargetPaths)),
       Must(Plan(Acceptance)), Must(Plan(RequiredChecks)), Must(Plan(References)), Must(Plan(Risk))]
    case Probe =>
      [May(Plan(TargetPaths)), May(Design(Constraints)), May(Plan(Acceptance)), May(Design(RiskNotes)),
       May(Plan(References)), May(Plan(Tags))]
    case Spec =>
      [Must(Design(Goals)), May(Design(NonGoals)), May(Design(Scope)), Must(Design(Constraints)),
       May(Design(Assumptions)), May(Design(Risks)), May(Plan(TargetPaths)), May(Design(Entrypoints)),
       May(Design(RequiredSkills)), May(Design(DecompositionHints)), Must(Plan(Acceptance)),
       Must(Plan(References))]
    case Incident =>
      [May(Evidence(ObservedSymptoms)), May(Evidence(FailedAttempts)), May(Evidence(EvidencePaths)),
       May(Evidence(RelatedRunIds)), May(Evidence(RelatedStageResults)), May(Plan(References))]
    case LearningRequest =>
      [May(Learning(SourceRefs)), May(Learning(PreferredOutputPaths)), May(Learning(OriginatingRunIds)),
       May(Learning(ArtifactPaths)), May(Plan(References))]
  }

  function Slots(ext: Externals, kind: Kind): seq<Slot<Field>> {
    Scalars(ext, kind) + Lists(kind)
  }

  // ---------------------------------------------------------------- parsing and rendering

  function InferModel(fields: Fields<Field>): Option<Kind> {
    if Subject(TaskId) in fields then Some(Task)
    else if Subject(ProbeId) in fields then Some(Probe)
    else if Subject(LearningRequestId) in fields then Some(LearningRequest)
    else if Subject(IncidentId) in fields then Some(Incident)
    else if Subject(SpecId) in fields then Some(Spec)
    else None
  }

  function TitleOf(fields: Fields<Field>): string {
    if Subject(Title) in fields && fields[Subject(Title)].Scalar? then fields[Subject(Title)].text else ""
  }

  function BuildDocument(ext: Externals, kind: Kind, heading: string, fields: Fields<Field>):
      Result<WorkDocument, WorkError>
  {
    match Build(WORK, Slots(ext, kind), fields)
    case Err(error) => Err(BadField(error))
    case Ok(doc) =>
      if Trim(TitleOf(doc)) != heading then Err(TitleMismatch)
      else if !ext.accepts(kind, doc) then Err(ContractViolated)
      else Ok(WorkDocument(kind, doc))
  }

  function ParseWorkDocument(ext: Externals, text: string): Result<WorkDocument, WorkError> {
    match Parse(WORK, WorkDialect, text)
    case Err(error) => Err(Markdown(error))
    case Ok((heading, fields)) =>
      match InferModel(fields)
      case None => Err(NoIdentifier)
      case Some(kind) => BuildDocument(ext, kind, heading, fields)
  }

  /** Parses one kind of document and rejects the others. */
  function ParseKind(ext: Externals, expected: Kind, text: string): Result<WorkDocument, WorkError> {
    match Parse(WORK, WorkDialect, text)
    case Err(error) => Err(Markdown(error))
    case Ok((heading, fields)) =>
      match InferModel(fields)
      case None => Err(NoIdentifier)
      case Some(kind) =>
        if kind != expected then Err(WrongKind(kind)) else BuildDocument(ext, kind, heading, fields)
  }

  function RenderWorkDocument(ext: Externals, d: WorkDocument): string {
    Render(WORK, TitleOf(d.fields), Order(Slots(ext, d.kind)), d.fields)
  }

  ghost predicate WellFormedDocument(ext: Externals, d: WorkDocument) {
    WellFormed(WORK, Slots(ext, d.kind), d.fields) && ext.accepts(d.kind, d.fields)
  }

  // ---------------------------------------------------------------- the tables are valid

  lemma WorkTableIsValid()
    ensures ValidTable(WORK)
  {
    forall f ensures IsLabel(WORK.name(f)) && WORK.lookup(WORK.name(f)) == Some(f) { LabelsAreKnown(f); }
  }

  /** A slot that keeps every text it accepts, or keeps the text of a JSON object. */
  ghost predicate Plain(ext: Externals, slot: Slot<Field>) {
    && !slot.presence.Shown?
    && (|| (forall raw :: slot.canon(raw).Some? ==> slot.canon(raw).value == raw)
        || (slot.canon == ext.objectText && !IsList(slot.field)))
  }

  ghost predicate DistinctFields(slots: seq<Slot<Field>>) {
    forall i, j :: 0 <= i < j < |slots| ==> slots[i].field != slots[j].field
  }

  /** Plain slots for lists only, or for scalars only. */
  ghost predicate GoodSlots(ext: Externals, slots: seq<Slot<Field>>, lists: bool) {
    forall i :: 0 <= i < |slots| ==> IsList(slots[i].field) == lists && Plain(ext, slots[i])
  }

  lemma TaskScalarsDiffer(ext: Externals)
    ensures DistinctFields(TaskScalars(ext))
  {}

  lemma ProbeScalarsDiffer(ext: Externals)
    ensures DistinctFields(ProbeScalars(ext))
  {}

  lemma SpecScalarsDiffer(ext: Externals)
    ensures DistinctFields(SpecScalars(ext))
  {}

  lemma IncidentScalarsDiffer(ext: Externals)
    ensures DistinctFields(IncidentScalars(ext))
  {}

  lemma LearningRequestScalarsDiffer(ext: Externals)
    ensures DistinctFields(LearningRequestScalars(ext))
  {}

  lemma TaskScalarsAreGood(ext: Externals)
    ensures GoodSlots(ext, TaskScalars(ext), false)
  {}

  lemma ProbeScalarsAreGood(ext: Externals)
    ensures GoodSlots(ext, ProbeScalars(ext), false)
  {}

  lemma SpecScalarsAreGood(ext: Externals)
    ensures GoodSlots(ext, SpecScalars(ext), false)
  {}

  lemma IncidentScalarsAreGood(ext: Externals)
    ensures GoodSlots(ext, IncidentScalars(ext), false)
  {}

  lemma LearningRequestScalarsAreGood(ext: Externals)
    ensures GoodSlots(ext, LearningRequestScalars(ext), false)
  {}

  lemma ListsDiffer(kind: Kind)
    ensures DistinctFields(Lists(kind))
  {}

  lemma ListsAreGood(ext: Externals, kind: Kind)
    ensures GoodSlots(ext, Lists(kind), true)
  {}

  lemma ScalarsDiffer(ext: Externals, kind: Kind)
    ensures DistinctFields(Scalars(ext, kind)) && GoodSlots(ext, Scalars(ext, kind), false)
  {
    match kind {
      case Task => TaskScalarsDiffer(ext); TaskScalarsAreGood(ext);
      case Probe => ProbeScalarsDiffer(ext); ProbeScalarsAreGood(ext);
      case Spec => SpecScalarsDiffer(ext); SpecScalarsAreGood(ext);
      case Incident => IncidentScalarsDiffer(ext); IncidentScalarsAreGood(ext);
      case LearningRequest => LearningRequestScalarsDiffer(ext); LearningRequestScalarsAreGood(ext);
    }
  }

  lemma SumOfSlots(ext: Externals, scalars: seq<Slot<Field>>, lists: seq<Slot<Field>>)
    requires DistinctFields(scalars) && GoodSlots(ext, scalars, false)
    requires DistinctFields(lists) && GoodSlots(ext, lists, true)
    ensures Distinct(Order(scalars + lists))
    ensures forall i :: 0 <= i < |scalars + lists| ==> Plain(ext, (scalars + lists)[i])
  {}

  lemma PlainIsValid(ext: Externals, slot: Slot<Field>)
    requires ValidExternals(ext) && Plain(ext, slot)
    ensures ValidSlot(WORK, slot)
  {}

  lemma SlotsAreValid(ext: Externals, kind: Kind)
    requires ValidExternals(ext)
    ensures ValidSlots(WORK, Slots(ext, kind))
  {
    var slots := Slots(ext, kind);
    ScalarsDiffer(ext, kind);
    ListsDiffer(kind);
    ListsAreGood(ext, kind);
    SumOfSlots(ext, Scalars(ext, kind), Lists(kind));
    forall i | 0 <= i < |slots| ensures ValidSlot(WORK, slots[i]) { PlainIsValid(ext, slots[i]); }
  }

  // ---------------------------------------------------------------- the kind is kept

  function Identifier(kind: Kind): Field {
    match kind
    case Task => Subject(TaskId)
    case Probe => Subject(ProbeId)
    case Spec => Subject(SpecId)
    case Incident => Subject(IncidentId)
    case LearningRequest => Subject(LearningRequestId)
  }

  /** The identifiers looked for before this kind's own. */
  function EarlierIdentifiers(kind: Kind): set<Field> {
    match kind
    case Task => {}
    case Probe => {Subject(TaskId)}
    case LearningRequest => {Subject(TaskId), Subject(ProbeId)}
    case Incident => {Subject(TaskId), Subject(ProbeId), Subject(LearningRequestId)}
    case Spec => {Subject(TaskId), Subject(ProbeId), Subject(LearningRequestId), Subject(IncidentId)}
  }

  lemma InferredKind(fields: Fields<Field>, kind: Kind)
    requires Identifier(kind) in fields && forall f :: f in EarlierIdentifiers(kind) ==> f !in fields
    ensures InferModel(fields) == Some(kind)
  {}

  lemma NoEarlierIdentifier(ext: Externals, kind: Kind, i: nat)
    requires i < |Scalars(ext, kind)|
    ensures Scalars(ext, kind)[i].field !in EarlierIdentifiers(kind)
  {}

  lemma FirstSlots(ext: Externals, kind: Kind)
    ensures |Scalars(ext, kind)| > 1
    ensures Slots(ext, kind)[0] == Must(Identifier(kind)) && Slots(ext, kind)[1] == Must(Subject(Title))
  {}

  lemma HasIdentifierAndTitle(ext: Externals, kind: Kind, doc: Fields<Field>)
    requires WellFormed(WORK, Slots(ext, kind), doc)
    ensures Identifier(kind) in doc && Clean(TitleOf(doc))
  {
    FirstSlots(ext, kind);
    assert SlotHolds(WORK, Slots(ext, kind)[0], doc) && SlotHolds(WORK, Slots(ext, kind)[1], doc);
  }

  lemma ListIsNoIdentifier(f: Field, kind: Kind)
    requires IsList(f)
    ensures f !in EarlierIdentifiers(kind)
  {}

  lemma NoSlotIsEarlier(ext: Externals, kind: Kind, i: nat)
    requires i < |Slots(ext, kind)|
    ensures Slots(ext, kind)[i].field !in EarlierIdentifiers(kind)
  {
    var scalars, lists := Scalars(ext, kind), Lists(kind);
    if i < |scalars| {
      NoEarlierIdentifier(ext, kind, i);
    } else {
      ListsAreGood(ext, kind);
      ListIsNoIdentifier(lists[i - |scalars|].field, kind);
    }
  }

  lemma KindIsKept(ext: Externals, kind: Kind, doc: Fields<Field>)
    requires WellFormed(WORK, Slots(ext, kind), doc)
    ensures InferModel(doc) == Some(kind)
  {
    var order := Order(Slots(ext, kind));
    HasIdentifierAndTitle(ext, kind, doc);
    forall i | 0 <= i < |order| ensures order[i] !in EarlierIdentifiers(kind) {
      NoSlotIsEarlier(ext, kind, i);
    }
    assert forall f :: f in order ==> f !in EarlierIdentifiers(kind);
    InferredKind(doc, kind);
  }

  // ---------------------------------------------------------------- main results

  /** Whatever text is accepted, the document is well formed. */
  lemma AcceptedIsWellFormed(ext: Externals, text: string)
    requires ValidExternals(ext) && ParseWorkDocument(ext, text).Ok?
    ensures WellFormedDocument(ext, ParseWorkDocument(ext, text).value)
  {
    var (heading, fields) := Parse(WORK, WorkDialect, text).value;
    var kind := InferModel(fields).value;
    ParseClean(WORK, WorkDialect, text);
    SlotsAreValid(ext, kind);
    BuildWellFormed(WORK, Slots(ext, kind), fields);
  }

  lemma WellFormedParses(ext: Externals, d: WorkDocument)
    requires ValidExternals(ext) && WellFormedDocument(ext, d)
    ensures Parse(WORK, WorkDialect, RenderWorkDocument(ext, d)) == Ok((TitleOf(d.fields), d.fields))
    ensures InferModel(d.fields) == Some(d.kind)
    ensures BuildDocument(ext, d.kind, TitleOf(d.fields), d.fields) == Ok(d)
  {
    var slots := Slots(ext, d.kind);
    WorkTableIsValid();
    SlotsAreValid(ext, d.kind);
    HasIdentifierAndTitle(ext, d.kind, d.fields);
    KindIsKept(ext, d.kind, d.fields);
    WellFormedIsWritable(WORK, slots, d.fields);
    RenderedParses(WORK, WorkDialect, TitleOf(d.fields), Order(slots), d.fields);
    BuildKeeps(WORK, slots, d.fields);
    TrimTrims(TitleOf(d.fields));
  }

  /** Main result: rendering is undone by parsing exactly for the well-formed documents. */
  lemma RoundTrip(ext: Externals, d: WorkDocument)
    requires ValidExternals(ext)
    ensures ParseWorkDocument(ext, RenderWorkDocument(ext, d)) == Ok(d) <==> WellFormedDocument(ext, d)
  {
    if WellFormedDocument(ext, d) {
      WellFormedParses(ext, d);
    } else if ParseWorkDocument(ext, RenderWorkDocument(ext, d)) == Ok(d) {
      AcceptedIsWellFormed(ext, RenderWorkDocument(ext, d));
    }
  }

  /** Main result: parse, then render, then parse changes nothing more, whatever was accepted. */
  lemma RenderingAcceptedTextIsStable(ext: Externals, text: string)
    requires ValidExternals(ext) && ParseWorkDocument(ext, text).Ok?
    ensures var d := ParseWorkDocument(ext, text).value;
            ParseWorkDocument(ext, RenderWorkDocument(ext, d)) == Ok(d)
  {
    AcceptedIsWellFormed(ext, text);
    RoundTrip(ext, ParseWorkDocument(ext, text).value);
  }

  /** A rendered document is read by the parser of its own kind and rejected by the other four. */
  lemma OnlyItsOwnKind(ext: Externals, d: WorkDocument, kind: Kind)
    requires ValidExternals(ext) && WellFormedDocument(ext, d)
    ensures ParseKind(ext, kind, RenderWorkDocument(ext, d)) == if kind == d.kind then Ok(d) else Err(WrongKind(d.kind))
  {
    WellFormedParses(ext, d);
  }
}
