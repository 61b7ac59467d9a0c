/** Recon packets (src/recon_packets.rs): headed markdown in the stricter dialect, with
    `path | reason` findings. */
module ReconPackets {
  import opened Wrappers
  import opened Text
  import opened HeadedMarkdown
  import opened DocumentSchema

  datatype PacketField = ReconPacketId | ProbeId | RequestSummary | InterpretedGoal | CreatedAt | CreatedBy
  datatype RoutingField = Decision | Confidence | RiskLevel | HandoffTarget | EmittedTaskId | EmittedSpecId
  datatype FindingsField = RelevantPaths | RelevantSymbols | RelevantTests | SemanticInvariants | EdgeCasesToPreserve
  datatype ChecksField = RequiredCommands | FocusedChecks | FallbackChecks | OpenQuestions

  /** Scalars first, then lists. */
  datatype Field =
    | Packet(packet: PacketField)
    | Routing(routing: RoutingField)
    | Findings(findings: FindingsField)
    | Checks(checks: ChecksField)

  function PacketLabel(f: PacketField): string {
    match f
    case ReconPacketId => "Recon-Packet-ID" case ProbeId => "Probe-ID"
    case RequestSummary => "Request-Summary" case InterpretedGoal => "Interpreted-Goal"
    case CreatedAt => "Created-At" case CreatedBy => "Created-By"
  }

  function RoutingLabel(f: RoutingField): string {
    match f
    case Decision => "Decision" case Confidence => "Confidence"
    case RiskLevel => "Risk-Level" case HandoffTarget => "Handoff-Target"
    case EmittedTaskId => "Emitted-Task-ID" case EmittedSpecId => "Emitted-Spec-ID"
  }

  function FindingsLabel(f: FindingsField): string {
    match f
    case RelevantPaths => "Relevant-Paths" case RelevantSymbols => "Relevant-Symbols"
    case RelevantTests => "Relevant-Tests" case SemanticInvariants => "Semantic-Invariants"
    case EdgeCasesToPreserve => "Edge-Cases-To-Preserve"
  }

  function ChecksLabel(f: ChecksField): string {
    match f
    case RequiredCommands => "Required-Commands" case FocusedChecks => "Focused-Checks"
    case FallbackChecks => "Fallback-Checks" case OpenQuestions => "Open-Questions"
  }

  function Label(f: Field): string {
    match f
    case Packet(x) => PacketLabel(x)
    case Routing(x) => RoutingLabel(x)
    case Findings(x) => FindingsLabel(x)
    case Checks(x) => ChecksLabel(x)
  }

  predicate IsList(f: Field) { f.Findings? || f.Checks? }

  /** A lookup by a number that no two labels share: a name is then compared with one label, and no proof
      compares every pair of them. The weights are chosen so that the numbers differ, and
      `FieldWithKey` lists `Key(Label(f))` for every field. */
  function Key(name: string): int {
    if |name| < 4 then 0 else |name| + 3 * name[|name| - 2] as int + 2 * name[|name| - 4] as int
  }

  function FieldWithKey(key: int): Option<Field> {
    match key
    case 466 => Some(Packet(ReconPacketId)) case 429 => Some(Packet(ProbeId))
    case 575 => Some(Packet(RequestSummary)) case 449 => Some(Packet(InterpretedGoal))
    case 405 => Some(Packet(CreatedAt)) case 408 => Some(Packet(CreatedBy))
    case 571 => Some(Routing(Decision)) case 509 => Some(Routing(Confidence))
    case 515 => Some(Routing(RiskLevel)) case 545 => Some(Routing(HandoffTarget))
    case 448 => Some(Routing(EmittedTaskId)) case 432 => Some(Routing(EmittedSpecId))
    case 520 => Some(Findings(RelevantPaths)) case 536 => Some(Findings(RelevantSymbols))
    case 564 => Some(Findings(RelevantTests)) case 561 => Some(Findings(SemanticInvariants))
    case 578 => Some(Findings(EdgeCasesToPreserve)) case 511 => Some(Checks(RequiredCommands))
    case 537 => Some(Checks(FocusedChecks)) case 538 => Some(Checks(FallbackChecks))
    case 554 => Some(Checks(OpenQuestions))
    case _ => None
  }

  function FieldByLabel(name: string): (f: Option<Field>)
    ensures f.Some? ==> Label(f.value) == name
  {
    var candidate :- FieldWithKey(Key(name));
    if Label(candidate) == name then Some(candidate) else None
  }

  lemma PacketLabels(f: PacketField)
    ensures IsLabel(PacketLabel(f))
  {}

  lemma PacketKeys(f: PacketField)
    ensures FieldWithKey(Key(PacketLabel(f))) == Some(Packet(f))
  {}

  lemma RoutingLabels(f: RoutingField)
    ensures IsLabel(RoutingLabel(f))
  {}

  lemma RoutingKeys(f: RoutingField)
    ensures FieldWithKey(Key(RoutingLabel(f))) == Some(Routing(f))
  {}

  lemma FindingsLabels(f: FindingsField)
    ensures IsLabel(FindingsLabel(f))
  {}

  lemma FindingsKeys(f: FindingsField)
    ensures FieldWithKey(Key(FindingsLabel(f))) == Some(Findings(f))
  {}

  lemma ChecksLabels(f: ChecksField)
    ensures IsLabel(ChecksLabel(f))
  {}

  lemma ChecksKeys(f: ChecksField)
    ensures FieldWithKey(Key(ChecksLabel(f))) == Some(Checks(f))
  {}

  predicate NoPlaceholder(f: Field, item: string) { false }

  const RECON: Table<Field> := Table(Label, IsList, FieldByLabel, NoPlaceholder)

  lemma ReconTableIsValid()
    ensures ValidTable(RECON)
  {
    forall f ensures IsLabel(RECON.name(f)) && RECON.lookup(RECON.name(f)) == Some(f) {
      match f {
        case Packet(x) => PacketLabels(x); PacketKeys(x);
        case Routing(x) => RoutingLabels(x); RoutingKeys(x);
        case Findings(x) => FindingsLabels(x); FindingsKeys(x);
        case Checks(x) => ChecksLabels(x); ChecksKeys(x);
      }
    }
  }

  // ---------------------------------------------------------------- findings

  datatype PathFinding = PathFinding(path: string, reason: string)

  /** `path | reason`, split at the first bar; neither part may be blank. */
  function ParsePathFinding(text: string): Option<PathFinding> {
    var (path, reason) :- SplitOnce(text, '|');
    if Trim(path) == "" || Trim(reason) == "" then None else Some(PathFinding(Trim(path), Trim(reason)))
  }

  function RenderPathFinding(finding: PathFinding): string {
    (finding.path + " ") + ['|'] + (" " + finding.reason)
  }

  ghost predicate WellFormedFinding(finding: PathFinding) {
    && finding.path != "" && Trimmed(finding.path) && '|' !in finding.path
    && finding.reason != "" && Trimmed(finding.reason)
  }

  lemma {:induction false} TrimSpaceBehind(s: string)
    requires Trimmed(s) && s != ""
    ensures Trim(s + " ") == s
  {
    assert (s + " ")[..|s|] == s && (s + " ")[0] == s[0];
    assert TrimStart(s + " ") == s + " " && TrimEnd(s + " ") == TrimEnd(s);
    TrimTrims(s);
  }

  /** A finding is undone by parsing exactly when its path and reason are trimmed, not empty, and
      the path has no bar. */
  lemma FindingRoundTrip(finding: PathFinding)
    ensures ParsePathFinding(RenderPathFinding(finding)) == Some(finding) <==> WellFormedFinding(finding)
  {
    var text := RenderPathFinding(finding);
    SplitOnceParts(text, '|');
    if WellFormedFinding(finding) {
      SplitOnceAt(finding.path + " ", '|', " " + finding.reason);
      TrimSpaceBehind(finding.path);
      TrimSpaces(finding.reason);
    } else if ParsePathFinding(text) == Some(finding) {
      ParsedFinding(text);
    }
  }

  lemma ParsedFinding(text: string)
    requires ParsePathFinding(text).Some?
    ensures WellFormedFinding(ParsePathFinding(text).value)
    ensures '\n' !in text ==> Clean(RenderPathFinding(ParsePathFinding(text).value))
  {
    var (path, reason) := SplitOnce(text, '|').value;
    SplitOnceParts(text, '|');
    TrimTrims(path);
    TrimTrims(reason);
  }

  /** The text a finding list keeps for one item. */
  function FindingText(text: string): Option<string> {
    var finding :- ParsePathFinding(text);
    Some(RenderPathFinding(finding))
  }

  lemma FindingTextIsKept(text: string)
    requires Clean(text) && FindingText(text).Some?
    ensures Clean(FindingText(text).value) && FindingText(FindingText(text).value) == FindingText(text)
  {
    ParsedFinding(text);
    FindingRoundTrip(ParsePathFinding(text).value);
  }

  // ---------------------------------------------------------------- the schema, in rendering order

  datatype Externals = Externals(isTimestamp: string -> bool, accepts: Fields<Field> -> bool)

  datatype ReconError =
    | Markdown(error: Error<Field>)
    | BadField(slotError: SlotError<Field>)
    | ContractViolated

  predicate IsDecision(text: string) { text in {"to_execution", "to_planning", "blocked", "noop"} }

  predicate IsLevel(text: string) { text in {"low", "medium", "high"} }

  predicate IsTarget(text: string) { text in {"execution", "planning", "blocked", "noop"} }

  function Scalars(ext: Externals): seq<Slot<Field>> {
    [Slot(Packet(ReconPacketId), Required, AnyText), Slot(Packet(ProbeId), Required, AnyText),
     Slot(Routing(Decision), Required, OneOf(IsDecision)), Slot(Routing(Confidence), Required, OneOf(IsLevel)),
     Slot(Routing(RiskLevel), Required, OneOf(IsLevel)), Slot(Packet(RequestSummary), Required, AnyText),
     Slot(Packet(InterpretedGoal), Required, AnyText), Slot(Routing(HandoffTarget), Required, OneOf(IsTarget)),
     Slot(Routing(EmittedTaskId), Optional, AnyText), Slot(Routing(EmittedSpecId), Optional, AnyText),
     Slot(Packet(CreatedAt), Required, OneOf(ext.isTimestamp)), Slot(Packet(CreatedBy), Shown("recon"), AnyText)]
  }

  function Lists(): seq<Slot<Field>> {
    [Slot(Findings(RelevantPaths), Required, FindingText), Slot(Findings(RelevantSymbols), Optional, AnyText),
     Slot(Findings(RelevantTests), Optional, FindingText), Slot(Findings(SemanticInvariants), Required, AnyText),
     Slot(Findings(EdgeCasesToPreserve), Optional, AnyText), Slot(Checks(RequiredCommands), Optional, AnyText),
     Slot(Checks(FocusedChecks), Optional, AnyText), Slot(Checks(FallbackChecks), Optional, AnyText),
     Slot(Checks(OpenQuestions), Optional, AnyText)]
  }

  function Slots(ext: Externals): seq<Slot<Field>> { Scalars(ext) + Lists() }

  ghost predicate Plain(slot: Slot<Field>) {
    && (slot.presence.Shown? ==> Keeps(slot, slot.presence.shownDefault))
    && (|| (forall raw :: slot.canon(raw).Some? ==> slot.canon(raw).value == raw)
        || slot.canon == FindingText)
  }

  lemma ScalarsDiffer(ext: Externals)
    ensures forall i, j :: 0 <= i < j < |Scalars(ext)| ==> Scalars(ext)[i].field != Scalars(ext)[j].field
    ensures forall i :: 0 <= i < |Scalars(ext)| ==> !IsList(Scalars(ext)[i].field)
  {}

  lemma ListsDiffer()
    ensures forall i, j :: 0 <= i < j < |Lists()| ==> Lists()[i].field != Lists()[j].field
    ensures forall i :: 0 <= i < |Lists()| ==> IsList(Lists()[i].field)
  {}

  lemma ScalarsArePlain(ext: Externals, i: nat)
    requires i < |Scalars(ext)|
    ensures Plain(Scalars(ext)[i])
  {}

  lemma ListsArePlain(i: nat)
    requires i < |Lists()|
    ensures Plain(Lists()[i])
  {}

  lemma PlainIsValid(slot: Slot<Field>)
    requires Plain(slot)
    ensures ValidSlot(RECON, slot)
  {
    forall raw | Clean(raw) && slot.canon(raw).Some? ensures Keeps(slot, slot.canon(raw).value) {
      if slot.canon == FindingText { FindingTextIsKept(raw); }
    }
  }

  lemma SlotsAreValid(ext: Externals)
    ensures ValidSlots(RECON, Slots(ext))
  {
    var scalars, lists := Scalars(ext), Lists();
    ScalarsDiffer(ext);
    ListsDiffer();
    forall i | 0 <= i < |scalars + lists| ensures ValidSlot(RECON, (scalars + lists)[i]) {
      if i < |scalars| { ScalarsArePlain(ext, i); } else { ListsArePlain(i - |scalars|); }
      PlainIsValid((scalars + lists)[i]);
    }
  }

  // ---------------------------------------------------------------- parsing and rendering

  function ParseReconPacket(ext: Externals, text: string): Result<Fields<Field>, ReconError> {
    match Parse(RECON, ReconDialect, text)
    case Err(error) => Err(Markdown(error))
    case Ok((_, fields)) =>
      match Build(RECON, Slots(ext), fields)
      case Err(error) => Err(BadField(error))
      case Ok(packet) => if ext.accepts(packet) then Ok(packet) else Err(ContractViolated)
  }

  function PacketTitle(packet: Fields<Field>): string {
    var id := Packet(ReconPacketId);
    "Recon Packet " + if id in packet && packet[id].Scalar? then packet[id].text else ""
  }

  function RenderReconPacket(ext: Externals, packet: Fields<Field>): string {
    Render(RECON, PacketTitle(packet), Order(Slots(ext)), packet)
  }

  ghost predicate WellFormedPacket(ext: Externals, packet: Fields<Field>) {
    WellFormed(RECON, Slots(ext), packet) && ext.accepts(packet)
  }

  /** Whatever text is accepted, the packet is well formed. */
  lemma AcceptedIsWellFormed(ext: Externals, text: string)
    requires ParseReconPacket(ext, text).Ok?
    ensures WellFormedPacket(ext, ParseReconPacket(ext, text).value)
  {
    ParseClean(RECON, ReconDialect, text);
    SlotsAreValid(ext);
    BuildWellFormed(RECON, Slots(ext), Parse(RECON, ReconDialect, text).value.1);
  }

  lemma TitleIsClean(ext: Externals, packet: Fields<Field>)
    requires WellFormed(RECON, Slots(ext), packet)
    ensures Clean(PacketTitle(packet))
  {
    assert SlotHolds(RECON, Slots(ext)[0], packet);
    assert Slots(ext)[0] == Slot(Packet(ReconPacketId), Required, AnyText);
    var id := packet[Packet(ReconPacketId)].text;
    assert PacketTitle(packet)[|PacketTitle(packet)| - 1] == id[|id| - 1];
  }

  /** Main result: rendering is undone by parsing exactly for the well-formed packets. */
  lemma RoundTrip(ext: Externals, packet: Fields<Field>)
    ensures ParseReconPacket(ext, RenderReconPacket(ext, packet)) == Ok(packet) <==> WellFormedPacket(ext, packet)
  {
    if WellFormedPacket(ext, packet) {
      ReconTableIsValid();
      SlotsAreValid(ext);
      TitleIsClean(ext, packet);
      WellFormedIsWritable(RECON, Slots(ext), packet);
      RenderedParses(RECON, ReconDialect, PacketTitle(packet), Order(Slots(ext)), packet);
      BuildKeeps(RECON, Slots(ext), packet);
    } else if ParseReconPacket(ext, RenderReconPacket(ext, packet)) == Ok(packet) {
      AcceptedIsWellFormed(ext, RenderReconPacket(ext, packet));
    }
  }

  /** Main result: parse, then render, then parse changes nothing more, whatever was accepted. */
  lemma RenderingAcceptedTextIsStable(ext: Externals, text: string)
    requires ParseReconPacket(ext, text).Ok?
    ensures var packet := ParseReconPacket(ext, text).value;
            ParseReconPacket(ext, RenderReconPacket(ext, packet)) == Ok(packet)
  {
    AcceptedIsWellFormed(ext, text);
    RoundTrip(ext, ParseReconPacket(ext, text).value);
  }
}
