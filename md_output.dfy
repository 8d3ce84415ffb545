/** The markdown compiler's `output` record and the five extraction passes
    that fill it: each pass reads its section of the document and assigns
    fields or pushes one record per entry, walking the entries with repeated
    `exec` calls of a global expression. */
module MdOutput {
  import opened Text
  import opened BehaviorSpec
  import opened MdMatch
  import opened MdFields
  import opened MdRecords

  /** `output`. Its `stateData` member is always the empty object and is not
      kept here. */
  class Output {
    var behaviorId: string
    var unitType: string
    var inherits: Option<string>
    var description: string
    var strategicBehaviors: seq<Strategic>
    var tacticalBehaviors: seq<Tactical>
    var operationalBehaviors: seq<Operational>
    var active: seq<ActiveAwareness>
    var passive: seq<PassiveAwareness>

    /** The record as it stands. */
    function Record(): Spec
      reads this
    {
      Spec(behaviorId, unitType, inherits, description, strategicBehaviors,
           tacticalBehaviors, operationalBehaviors, active, passive)
    }

    /** Empty strings and lists, and no parent behaviour. */
    constructor ()
      ensures Record() == Initial
    {
      behaviorId := "";
      unitType := "";
      inherits := None;
      description := "";
      strategicBehaviors := [];
      tacticalBehaviors := [];
      operationalBehaviors := [];
      active := [];
      passive := [];
    }

    /** extractMetadata: a field that is absent leaves the record as it
        was. */
    method ExtractMetadata(md: string)
      modifies this
      ensures Record() == MetadataPass(md, old(Record()))
    {
      var r := ReadMetadata(md, Record());
      behaviorId, unitType, inherits, description := r.behaviorId, r.unitType, r.inherits, r.description;
      assert Record() == r;
    }

    /** extractStrategicBehaviors: one record per `###` entry of the section,
        in the order of the entries. */
    method ExtractStrategicBehaviors(md: string)
      modifies this
      ensures Record() == StrategicPass(md, old(Record()))
    {
      var records := StrategicRecords(md);
      strategicBehaviors := strategicBehaviors + records;
    }

    /** extractTacticalBehaviors */
    method ExtractTacticalBehaviors(md: string)
      modifies this
      ensures Record() == TacticalPass(md, old(Record()))
    {
      var records := TacticalRecords(md);
      tacticalBehaviors := tacticalBehaviors + records;
    }

    /** extractOperationalBehaviors */
    method ExtractOperationalBehaviors(md: string)
      modifies this
      ensures Record() == OperationalPass(md, old(Record()))
    {
      var records := OperationalRecords(md);
      operationalBehaviors := operationalBehaviors + records;
    }

    /** extractAwarenessTypes: the entries of the active part, then those of
        the passive part. */
    method ExtractAwarenessTypes(md: string)
      modifies this
      ensures Record() == AwarenessPass(md, old(Record()))
    {
      var activeRecords, passiveRecords := AwarenessRecords(md);
      active := active + activeRecords;
      passive := passive + passiveRecords;
    }
  }

  /** The metadata steps in the order the compiler takes them: the unit type
      from the first heading, the behaviour id, the unit type from its own
      field (which overrides the heading), the parent and the description.
      Each step overwrites the value it is given only when its pattern
      matches. */
  method ReadMetadata(md: string, s: Spec) returns (r: Spec)
    ensures r == MetadataPass(md, s)
    ensures r == s.(behaviorId := r.behaviorId, unitType := r.unitType, inherits := r.inherits, description := r.description)
  {
    var id, unit, parent, desc := s.behaviorId, s.unitType, s.inherits, s.description;
    match Title(md) {
      case Some(t) => unit := Trim(RemoveFirst(t, " Behavior"));
      case None =>
    }
    match Meta(md, "Behavior ID") {
      case Some(v) => id := Trim(v);
      case None =>
    }
    match Meta(md, "Unit Type") {
      case Some(v) => unit := Trim(v);
      case None =>
    }
    match Meta(md, "Inherits") {
      case Some(v) => parent := Some(Trim(v));
      case None =>
    }
    match DescriptionSection(md) {
      case Some(v) => desc := Trim(v);
      case None =>
    }
    r := s.(behaviorId := id, unitType := unit, inherits := parent, description := desc);
  }

  /** The body of extractStrategicBehaviors: nothing when the section is
      missing, otherwise one record per entry. */
  method StrategicRecords(md: string) returns (records: seq<Strategic>)
    ensures records == ReadAll(EntriesOf(StrategicSection(md)), ReadStrategic)
  {
    records := [];
    match StrategicSection(md) {
      case None =>
      case Some(content) => records := CollectEntries(content, BehaviorEntryAt, ReadStrategic);
    }
  }

  method TacticalRecords(md: string) returns (records: seq<Tactical>)
    ensures records == ReadAll(EntriesOf(TacticalSection(md)), ReadTactical)
  {
    records := [];
    match TacticalSection(md) {
      case None =>
      case Some(content) => records := CollectEntries(content, BehaviorEntryAt, ReadTactical);
    }
  }

  method OperationalRecords(md: string) returns (records: seq<Operational>)
    ensures records == ReadAll(EntriesOf(OperationalSection(md)), ReadOperational)
  {
    records := [];
    match OperationalSection(md) {
      case None =>
      case Some(content) => records := CollectOperational(content);
    }
  }

  /** The body of extractAwarenessTypes: the awareness section, then its
      active part and its passive part, each read only when present. */
  method AwarenessRecords(md: string) returns (active: seq<ActiveAwareness>, passive: seq<PassiveAwareness>)
    ensures active == ReadAll(ActiveEntries(md), ReadActive)
    ensures passive == ReadAll(PassiveEntries(md), ReadPassive)
  {
    active, passive := [], [];
    match AwarenessSection(md) {
      case None =>
      case Some(content) =>
        match ActiveContent(content) {
          case None =>
          case Some(activeContent) => active := CollectEntries(activeContent, AwarenessEntryAt, ReadActive);
        }
        match PassiveContent(content) {
          case None =>
          case Some(passiveContent) => passive := CollectEntries(passiveContent, AwarenessEntryAt, ReadPassive);
        }
    }
  }

  /** The `while ((match = pattern.exec(content)) !== null)` loop: each match
      is read into a record, and the next search starts where the match
      ended. */
  method CollectEntries<R>(content: string, at: string -> Option<(nat, Entry)>, read: Entry -> R)
    returns (records: seq<R>)
    requires forall t :: at(t).Some? ==> 1 <= at(t).value.0 <= |t|
    ensures records == ReadAll(Scan(content, at), read)
  {
    records := [];
    var rest := content;
    while Leftmost(rest, at).Some?
      invariant records + ReadAll(Scan(rest, at), read) == ReadAll(Scan(content, at), read)
      decreases |rest|
    {
      var (p, m) := Leftmost(rest, at).value;
      NextEntry(rest, at, read, p, m);
      Regroup(records, read(m.1), ReadAll(Scan(rest[p + m.0..], at), read));
      records := records + [read(m.1)];
      rest := rest[p + m.0..];
    }
    LastEntry(rest, at, read);
  }

  /** The operational loop: the parameters of each entry are collected line
      by line before its record is built. */
  method CollectOperational(content: string) returns (records: seq<Operational>)
    ensures records == ReadAll(Entries(content), ReadOperational)
  {
    records := [];
    var rest := content;
    while Leftmost(rest, BehaviorEntryAt).Some?
      invariant records + ReadAll(Entries(rest), ReadOperational) == ReadAll(Entries(content), ReadOperational)
      decreases |rest|
    {
      var (p, m) := Leftmost(rest, BehaviorEntryAt).value;
      NextEntry(rest, BehaviorEntryAt, ReadOperational, p, m);
      Regroup(records, ReadOperational(m.1), ReadAll(Entries(rest[p + m.0..]), ReadOperational));
      var parameters := CollectParameters(ParamLines(m.1.body));
      records := records + [WithParameters(m.1, parameters)];
      rest := rest[p + m.0..];
    }
    LastEntry(rest, BehaviorEntryAt, ReadOperational);
  }

  /** One `exec` step: the record of the match found, then those of the rest. */
  lemma {:induction false} NextEntry<R>(rest: string, at: string -> Option<(nat, Entry)>, read: Entry -> R, p: nat, m: (nat, Entry))
    requires forall t :: at(t).Some? ==> 1 <= at(t).value.0 <= |t|
    requires Leftmost(rest, at) == Some((p, m))
    ensures p + m.0 <= |rest|
    ensures ReadAll(Scan(rest, at), read) == [read(m.1)] + ReadAll(Scan(rest[p + m.0..], at), read)
  {
    ScanStep(rest, at, p, m);
    ReadAllCons(m.1, Scan(rest[p + m.0..], at), read);
  }

  lemma {:induction false} ReadAllCons<R>(e: Entry, es: seq<Entry>, read: Entry -> R)
    ensures ReadAll([e] + es, read) == [read(e)] + ReadAll(es, read)
  {
    assert ([e] + es)[1..] == es;
  }

  /** The records gathered so far, the one just read and those still to
      come, in one list whichever way they are grouped. */
  lemma {:induction false} Regroup<R>(done: seq<R>, next: R, later: seq<R>)
    ensures done + ([next] + later) == (done + [next]) + later
  {
  }

  /** The record of an operational entry with the parameters the loop
      collected put in: the record the entry reads as. */
  function WithParameters(e: Entry, ps: seq<Param>): (r: Operational)
    requires ps == Parameters(ParamLines(e.body))
    ensures r == ReadOperational(e)
  {
    ReadOperational(e).(parameters := ps)
  }

  /** `exec` returned `null`: no record is left. */
  lemma {:induction false} LastEntry<R>(rest: string, at: string -> Option<(nat, Entry)>, read: Entry -> R)
    requires forall t :: at(t).Some? ==> 1 <= at(t).value.0 <= |t|
    requires Leftmost(rest, at).None?
    ensures ReadAll(Scan(rest, at), read) == []
  {
  }

  // ---------------------------------------------------------------------------
  // What each pass makes of the record it is given.

  /** The record `output` starts as. */
  const Initial := Spec("", "", None, "", [], [], [], [], [])

  /** A metadata field that is absent leaves the record's value as it was. */
  function MetadataPass(md: string, s: Spec): Spec {
    s.(behaviorId := TrimmedOr(Meta(md, "Behavior ID"), s.behaviorId),
       unitType := UnitTypeOf(md, s.unitType),
       inherits := InheritsOf(md, s.inherits),
       description := TrimmedOr(DescriptionSection(md), s.description))
  }

  /** The records of the entries are appended after those already held. */
  function StrategicPass(md: string, s: Spec): Spec {
    s.(strategicBehaviors := s.strategicBehaviors + ReadAll(EntriesOf(StrategicSection(md)), ReadStrategic))
  }

  function TacticalPass(md: string, s: Spec): Spec {
    s.(tacticalBehaviors := s.tacticalBehaviors + ReadAll(EntriesOf(TacticalSection(md)), ReadTactical))
  }

  function OperationalPass(md: string, s: Spec): Spec {
    s.(operationalBehaviors := s.operationalBehaviors + ReadAll(EntriesOf(OperationalSection(md)), ReadOperational))
  }

  function AwarenessPass(md: string, s: Spec): Spec {
    s.(active := s.active + ReadAll(ActiveEntries(md), ReadActive),
       passive := s.passive + ReadAll(PassiveEntries(md), ReadPassive))
  }

  /** The whole record the compiler builds from a document: the five passes
      in order, from the initial record. */
  function CompileSpec(md: string): Spec {
    AwarenessPass(md, OperationalPass(md, TacticalPass(md, StrategicPass(md, MetadataPass(md, Initial)))))
  }

  /** The compiler's run over one document: a fresh record and the five
      passes in order. */
  method Compile(md: string) returns (spec: Spec)
    ensures spec == CompileSpec(md)
  {
    var output := new Output();
    output.ExtractMetadata(md);
    output.ExtractStrategicBehaviors(md);
    output.ExtractTacticalBehaviors(md);
    output.ExtractOperationalBehaviors(md);
    output.ExtractAwarenessTypes(md);
    spec := output.Record();
  }
}
