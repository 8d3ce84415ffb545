/** What the markdown compiler reads from a document: the header metadata,
    the sections, and one record per headed entry, each field with its
    default when the entry does not give it. */
module MdRecords {
  import opened Text
  import opened BehaviorSpec
  import opened MdMatch
  import opened MdFields

  // ---------------------------------------------------------------------------
  // Header metadata.

  /** `^#\s+(.+)$` in multi-line mode, searched in the document with a line
      break put in front, so that the first line counts as a line start. */
  function TitleAt(t: string): Option<string> {
    if |t| < 2 || !IsLineTerm(t[0]) || t[1] != '#' || BlankRun(t[2..]) == 0 then None
    else LineValue(t[2..])
  }

  /** The text of the first `# ` heading. */
  function Title(md: string): (r: Option<string>)
    ensures r.None? <==> forall p :: 0 <= p <= |md| + 1 ==> TitleAt(("\n" + md)[p..]).None?
  {
    match Leftmost("\n" + md, TitleAt)
    case None => None
    case Some((_, v)) => Some(v)
  }

  /** Where the description paragraph stops: a line that starts with `##` or
      `---`. */
  predicate ParagraphStop(u: string) {
    StartsWith(u, "\n##") || StartsWith(u, "\n---")
  }

  /** `##\s+Description\s+(.+?)(?=\n##|\n---)` with `.` matching line breaks;
      the whitespace after the heading may include the line break. */
  function DescriptionSectionAt(t: string): Option<string> {
    match HeadingLength(t, "Description")
    case None => None
    case Some(h) =>
      var n := SpaceRun(t[h..]);
      if n == 0 then None
      else
        var v := t[h + n..];
        match Seek(v, 1, ParagraphStop)
        case None => None
        case Some(k) => Some(v[..k])
  }

  function DescriptionSection(md: string): Option<string> {
    match Leftmost(md, DescriptionSectionAt)
    case None => None
    case Some((_, v)) => Some(v)
  }

  /** The unit type: the `**Unit Type**:` value when there is one, otherwise
      the first heading without its first ` Behavior`, otherwise what the
      record held before. All three are trimmed. */
  function UnitTypeOf(md: string, prior: string): string {
    match Meta(md, "Unit Type")
    case Some(v) => Trim(v)
    case None =>
      match Title(md)
      case Some(t) => Trim(RemoveFirst(t, " Behavior"))
      case None => prior
  }

  /** Without a `Unit Type` field, the unit type is the title with its
      first ` Behavior` cut out, then trimmed. */
  lemma {:induction false} UnitTypeFromTitle(md: string, prior: string, t: string, k: nat)
    requires Meta(md, "Unit Type").None? && Title(md) == Some(t)
    requires Find(t, " Behavior") == Some(k)
    ensures UnitTypeOf(md, prior) == Trim(t[..k] + t[k + 9..])
  {
    RemoveFirstCuts(t, " Behavior");
  }

  function InheritsOf(md: string, prior: Option<string>): Option<string> {
    match Meta(md, "Inherits")
    case Some(v) => Some(Trim(v))
    case None => prior
  }

  // ---------------------------------------------------------------------------
  // Sections.

  predicate StrategicStop(u: string) {
    HeadingAhead(u, "Tactical Behaviors") || StartsWith(u, "---")
  }

  predicate TacticalStop(u: string) {
    HeadingAhead(u, "Operational Behaviors")
  }

  predicate OperationalStop(u: string) {
    HeadingAhead(u, "Awareness System")
  }

  predicate AwarenessStop(u: string) {
    HeadingAhead(u, "State Transitions") || HeadingAhead(u, "Priority")
  }

  /** `###\s+Passive` */
  predicate PassiveAhead(u: string) {
    StartsWith(u, "###") && 0 < BlankRun(u[3..]) && StartsWith(u[3 + BlankRun(u[3..])..], "Passive")
  }

  predicate ActiveStop(u: string) {
    PassiveAhead(u) || StartsWith(u, "##")
  }

  predicate PassiveStop(u: string) {
    StartsWith(u, "###") || StartsWith(u, "##")
  }

  function StrategicSection(md: string): Option<string> {
    Section(md, "Strategic Behaviors", StrategicStop)
  }

  function TacticalSection(md: string): Option<string> {
    Section(md, "Tactical Behaviors", TacticalStop)
  }

  function OperationalSection(md: string): Option<string> {
    Section(md, "Operational Behaviors", OperationalStop)
  }

  function AwarenessSection(md: string): Option<string> {
    Section(md, "Awareness System", AwarenessStop)
  }

  function ActiveContent(content: string): Option<string> {
    Subsection(content, "Active Awareness", ActiveStop)
  }

  function PassiveContent(content: string): Option<string> {
    Subsection(content, "Passive Awareness", PassiveStop)
  }

  // ---------------------------------------------------------------------------
  // Records.

  /** The optional fields that become one-element lists. */
  function OneOrNone(v: Option<string>): (r: seq<string>)
    ensures |r| <= 1
  {
    match v
    case None => []
    case Some(s) => [Trim(s)]
  }

  /** The awareness types: none without the field, otherwise entries that
      hold no comma and no whitespace at either end. */
  function AwarenessOf(body: string): (r: seq<string>)
    ensures Field(body, Named("Awareness")).None? ==> r == []
    ensures forall i :: 0 <= i < |r| ==> ',' !in r[i] && Trim(r[i]) == r[i]
  {
    match Field(body, Named("Awareness"))
    case None => []
    case Some(v) => AwarenessList(v)
  }

  /** A tactical behaviour can be interrupted unless its first
      `**Interrupts**:` line mentions `None`. */
  function InterruptibleOf(body: string): bool {
    match Field(body, Named("Interrupts"))
    case None => true
    case Some(v) => !Contains(v, "None")
  }

  function ReadStrategic(e: Entry): (r: Strategic)
    ensures r.strategicId == Trim(e.name)
    ensures |r.tacticalDelegates| == |DelegateItems(e.body)|
    ensures forall i :: 0 <= i < |r.tacticalDelegates| ==>
      r.tacticalDelegates[i] == Trim(AfterMarker(DelegateItems(e.body)[i], Numbered))
    ensures forall i :: 0 <= i < |r.awarenessTypes| ==> Trim(r.awarenessTypes[i]) == r.awarenessTypes[i]
    ensures forall i :: 0 <= i < |r.transitions| ==> StoredTransition(r.transitions[i])
  {
    Strategic(
      Trim(e.name),
      TrimmedOr(DescriptionField(e.body), ""),
      TrimmedOr(Field(e.body, Named("Priority")), "Normal"),
      DelegateNames(e.body),
      AwarenessOf(e.body),
      TransitionList(e.body, "If"))
  }

  function ReadTactical(e: Entry): (r: Tactical)
    ensures r.tacticalId == Trim(e.name)
    ensures |r.operationalSequence| == |StepItems(e.body)|
    ensures forall i :: 0 <= i < |r.operationalSequence| ==>
      PlainName(StepItems(e.body)[i], Numbered, r.operationalSequence[i])
    ensures forall i :: 0 <= i < |r.awarenessTypes| ==> Trim(r.awarenessTypes[i]) == r.awarenessTypes[i]
    ensures forall i :: 0 <= i < |r.transitions| ==> StoredTransition(r.transitions[i])
  {
    Tactical(
      Trim(e.name),
      TrimmedOr(DescriptionField(e.body), ""),
      TrimmedOr(AnnotatedField(e.body, Named("Priority")), "Normal"),
      StepNames(e.body),
      AwarenessOf(e.body),
      TrimmedOr(Field(e.body, Named("Success")), ""),
      TrimmedOr(Field(e.body, Named("Failure")), ""),
      InterruptibleOf(e.body),
      TransitionList(e.body, ""))
  }

  /** The duration is kept as the trimmed text of its field. */
  function DurationOf(body: string): Option<string> {
    match Field(body, Named("Duration"))
    case None => None
    case Some(v) => Some(Trim(v))
  }

  function ReadOperational(e: Entry): (r: Operational)
    ensures r.operationalId == Trim(e.name)
    ensures |r.result| == |ResultItems(e.body)|
    ensures forall i :: 0 <= i < |r.result| ==> PlainName(ResultItems(e.body)[i], Dash, r.result[i])
  {
    Operational(
      Trim(e.name),
      TrimmedOr(DescriptionField(e.body), ""),
      TrimmedOr(Field(e.body, Named("Action")), ""),
      Parameters(ParamLines(e.body)),
      DurationOf(e.body),
      TrimmedOr(Field(e.body, Named("Success")), ""),
      TrimmedOr(Field(e.body, Named("Failure")), ""),
      OneOrNone(Field(e.body, Named("Side Effects"))),
      ResultNames(e.body))
  }

  /** The scan radius is kept as the trimmed text of its field. */
  function ScanRadiusOf(body: string): Option<string> {
    match Field(body, Named("Scan Radius"))
    case None => None
    case Some(v) => Some(Trim(v))
  }

  function ReadActive(e: Entry): (r: ActiveAwareness)
    ensures r.awarenessId == Trim(e.name)
  {
    ActiveAwareness(
      Trim(e.name),
      TrimmedOr(DescriptionField(e.body), ""),
      ScanRadiusOf(e.body),
      TrimmedOr(Field(e.body, TriggerLabel), ""),
      TrimmedOr(Field(e.body, Named("Forced Behavior")), ""),
      TrimmedOr(Field(e.body, Named("Priority")), "Critical"),
      [])
  }

  function ReadPassive(e: Entry): (r: PassiveAwareness)
    ensures r.awarenessId == Trim(e.name)
  {
    PassiveAwareness(
      Trim(e.name),
      TrimmedOr(DescriptionField(e.body), ""),
      OneOrNone(Field(e.body, Named("Stores"))),
      OneOrNone(Field(e.body, Named("Influences"))))
  }

  /** A tactical record is not interruptible exactly when the first line
      that carries `**Interrupts**:` mentions `None`. */
  lemma {:induction false} InterruptibleExactly(e: Entry)
    ensures !ReadTactical(e).interruptible <==>
      exists p :: FirstField(e.body, Named("Interrupts"), p)
                  && Contains(FieldAt(e.body[p..], Named("Interrupts")).value, "None")
  {
    var f := Field(e.body, Named("Interrupts"));
    if f.Some? {
      var p :| 0 <= p <= |e.body| && FieldAt(e.body[p..], Named("Interrupts")) == f
               && forall q :: 0 <= q < p ==> FieldAt(e.body[q..], Named("Interrupts")).None?;
      assert FirstField(e.body, Named("Interrupts"), p);
      forall p' | FirstField(e.body, Named("Interrupts"), p')
        ensures FieldAt(e.body[p'..], Named("Interrupts")) == f
      {
        FirstFieldWins(e.body, Named("Interrupts"), p');
      }
    } else {
      forall p' | FirstField(e.body, Named("Interrupts"), p')
        ensures false
      {
        FirstFieldWins(e.body, Named("Interrupts"), p');
      }
    }
  }

  // ---------------------------------------------------------------------------
  // Defaults: an entry whose body carries no bold label keeps every value the
  // record starts with.

  lemma {:induction false} StrategicDefaults(e: Entry)
    requires '*' !in e.body
    ensures var r := ReadStrategic(e);
      r.description == "" && r.priority == "Normal" && r.tacticalDelegates == []
      && r.awarenessTypes == [] && r.transitions == []
  {
    Undescribed(e.body);
    Unlabelled(e.body, Named("Priority"));
    Unlabelled(e.body, DelegatesLabel);
    Unlabelled(e.body, Named("Awareness"));
    Unlabelled(e.body, Named("Transitions"));
  }

  lemma {:induction false} TacticalDefaults(e: Entry)
    requires '*' !in e.body
    ensures var r := ReadTactical(e);
      r.description == "" && r.priority == "Normal" && r.operationalSequence == []
      && r.awarenessTypes == [] && r.successCondition == "" && r.failureCondition == ""
      && r.interruptible && r.transitions == []
  {
    Undescribed(e.body);
    Unlabelled(e.body, Named("Priority"));
    Unlabelled(e.body, Named("Operational Sequence"));
    Unlabelled(e.body, Named("Awareness"));
    Unlabelled(e.body, Named("Success"));
    Unlabelled(e.body, Named("Failure"));
    Unlabelled(e.body, Named("Interrupts"));
    Unlabelled(e.body, Named("Transitions"));
  }

  lemma {:induction false} OperationalDefaults(e: Entry)
    requires '*' !in e.body
    ensures var r := ReadOperational(e);
      r.description == "" && r.action == "" && r.parameters == [] && r.duration.None?
      && r.successCondition == "" && r.failureCondition == "" && r.sideEffects == []
      && r.result == []
  {
    Undescribed(e.body);
    Unlabelled(e.body, Named("Action"));
    Unlabelled(e.body, Named("Parameters"));
    Unlabelled(e.body, Named("Duration"));
    Unlabelled(e.body, Named("Success"));
    Unlabelled(e.body, Named("Failure"));
    Unlabelled(e.body, Named("Side Effects"));
    Unlabelled(e.body, Named("Result"));
  }

  lemma {:induction false} ActiveDefaults(e: Entry)
    requires '*' !in e.body
    ensures var r := ReadActive(e);
      r.description == "" && r.scanRadius.None? && r.triggerCondition == ""
      && r.forcedBehavior == "" && r.priority == "Critical" && r.stores == []
  {
    Undescribed(e.body);
    Unlabelled(e.body, Named("Scan Radius"));
    Unlabelled(e.body, TriggerLabel);
    Unlabelled(e.body, Named("Forced Behavior"));
    Unlabelled(e.body, Named("Priority"));
  }

  lemma {:induction false} PassiveDefaults(e: Entry)
    requires '*' !in e.body
    ensures var r := ReadPassive(e);
      r.description == "" && r.stores == [] && r.influences == []
  {
    Undescribed(e.body);
    Unlabelled(e.body, Named("Stores"));
    Unlabelled(e.body, Named("Influences"));
  }

  // ---------------------------------------------------------------------------
  // The records of a section, one per entry, in the order of the entries.

  function EntriesOf(content: Option<string>): seq<Entry> {
    match content
    case None => []
    case Some(c) => Entries(c)
  }

  function AwarenessEntriesOf(content: Option<string>): seq<Entry> {
    match content
    case None => []
    case Some(c) => AwarenessEntries(c)
  }

  /** One record per entry, in the order of the entries. */
  function ReadAll<R>(es: seq<Entry>, read: Entry -> R): (r: seq<R>)
    ensures |r| == |es| && forall i :: 0 <= i < |es| ==> r[i] == read(es[i])
  {
    if es == [] then [] else [read(es[0])] + ReadAll(es[1..], read)
  }

  function ActiveEntries(md: string): seq<Entry> {
    match AwarenessSection(md)
    case None => []
    case Some(c) => AwarenessEntriesOf(ActiveContent(c))
  }

  function PassiveEntries(md: string): seq<Entry> {
    match AwarenessSection(md)
    case None => []
    case Some(c) => AwarenessEntriesOf(PassiveContent(c))
  }
}
