/** The pure templates of the Elm generator (tools/json-to-elm.js): the three
    variant types, the initial state and the fixed sections of the module. */
module ElmTypes {
  import opened Text
  import opened ElmNames
  import opened BehaviorSpec

  // ---------------------------------------------------------------------------
  // Names read from the specification

  /** The Elm module name of a specification (`toElmModuleName(spec.behaviorId)`). */
  function ModuleOf(spec: Spec): string {
    ModuleName(spec.behaviorId)
  }

  function StrategicIds(spec: Spec): (r: seq<string>)
    ensures |r| == |spec.strategicBehaviors|
  {
    seq(|spec.strategicBehaviors|, i requires 0 <= i < |spec.strategicBehaviors| =>
      spec.strategicBehaviors[i].strategicId)
  }

  function TacticalIds(spec: Spec): (r: seq<string>)
    ensures |r| == |spec.tacticalBehaviors|
  {
    seq(|spec.tacticalBehaviors|, i requires 0 <= i < |spec.tacticalBehaviors| =>
      spec.tacticalBehaviors[i].tacticalId)
  }

  function OperationalIds(spec: Spec): (r: seq<string>)
    ensures |r| == |spec.operationalBehaviors|
  {
    seq(|spec.operationalBehaviors|, i requires 0 <= i < |spec.operationalBehaviors| =>
      spec.operationalBehaviors[i].operationalId)
  }

  /** The text fields the generator pastes into the Elm source, each on one
      line; the line-by-line lemmas below are stated for such specifications. */
  predicate OneLineNames(spec: Spec) {
    SingleLine(spec.behaviorId) && SingleLine(spec.unitType)
    && (forall i :: 0 <= i < |spec.strategicBehaviors| ==> SingleLine(spec.strategicBehaviors[i].strategicId))
    && (forall i :: 0 <= i < |spec.tacticalBehaviors| ==> SingleLine(spec.tacticalBehaviors[i].tacticalId))
    && (forall i :: 0 <= i < |spec.operationalBehaviors| ==> SingleLine(spec.operationalBehaviors[i].operationalId))
  }

  /** Converted names of one-line names are one-line. */
  lemma {:induction false} OneLineTypeNames(names: seq<string>)
    requires forall i :: 0 <= i < |names| ==> SingleLine(names[i])
    ensures forall i :: 0 <= i < |names| ==> SingleLine(TypeName(names[i]))
  {
    forall i | 0 <= i < |names| ensures SingleLine(TypeName(names[i])) {
      TypeNameKeepsChar(names[i], '\n');
    }
  }

  // ---------------------------------------------------------------------------
  // Variant types

  /** The line declaring one constructor. */
  function VariantLine(name: string): string {
    "    | " + name
  }

  /** The line naming the type. */
  function TypeLine(kind: string, m: string): string {
    "type " + kind + m
  }

  /** `names.map(n => `    | ${n}`)`. */
  function VariantLines(names: seq<string>): (r: seq<string>)
    ensures |r| == |names|
    ensures forall i :: 0 <= i < |names| ==> r[i] == VariantLine(names[i])
  {
    seq(|names|, i requires 0 <= i < |names| => VariantLine(names[i]))
  }

  /** The template shared by the three type generators: a doc comment, the
      type line, the variant lines joined by newlines, and the fallback
      constructor. */
  function VariantType(kind: string, unitType: string, m: string, names: seq<string>, fallback: string): string {
    Join(["{-| " + kind + " behaviors for " + unitType, "-}", TypeLine(kind, m),
          Join(VariantLines(names), "\n"), VariantLine(fallback)], "\n")
  }

  /** generateStrategicBehaviorType */
  function StrategicBehaviorType(spec: Spec): string {
    VariantType("Strategic", spec.unitType, ModuleOf(spec), Map(StrategicIds(spec), TypeName), "WithoutHome")
  }

  /** generateTacticalBehaviorType */
  function TacticalBehaviorType(spec: Spec): string {
    VariantType("Tactical", spec.unitType, ModuleOf(spec), Map(TacticalIds(spec), TypeName), "TacticalIdle")
  }

  /** generateOperationalBehaviorType */
  function OperationalBehaviorType(spec: Spec): string {
    VariantType("Operational", spec.unitType, ModuleOf(spec), Map(OperationalIds(spec), TypeName), "OperationalIdle")
  }

  /** The lines of a variant type: three header lines, one `    | Name` line
      per name in order (a single empty line when there are none, since the
      empty join leaves an empty line behind), then the fallback. */
  lemma {:induction false} VariantTypeLines(kind: string, unitType: string, m: string, names: seq<string>, fallback: string)
    requires SingleLine(kind) && SingleLine(unitType) && SingleLine(m) && SingleLine(fallback)
    requires forall i :: 0 <= i < |names| ==> SingleLine(names[i])
    ensures Lines(VariantType(kind, unitType, m, names, fallback)) ==
      ["{-| " + kind + " behaviors for " + unitType, "-}", TypeLine(kind, m)]
      + (if names == [] then [""] else VariantLines(names))
      + [VariantLine(fallback)]
  {
    var head := ["{-| " + kind + " behaviors for " + unitType, "-}", TypeLine(kind, m)];
    var vs := VariantLines(names);
    var last := [VariantLine(fallback)];
    var body := if names == [] then [""] else vs;
    assert Join(body, "\n") == Join(vs, "\n");
    var parts := head + body + last;
    JoinAppend(head, body + last, "\n");
    JoinAppend(body, last, "\n");
    JoinAppend(head, [Join(vs, "\n")] + last, "\n");
    JoinAppend([Join(vs, "\n")], last, "\n");
    assert ["{-| " + kind + " behaviors for " + unitType, "-}", TypeLine(kind, m),
          Join(vs, "\n"), VariantLine(fallback)] == head + ([Join(vs, "\n")] + last);
    assert Join([Join(vs, "\n")], "\n") == Join(vs, "\n");
    assert Join(body, "\n") == Join(vs, "\n");
    assert head + (body + last) == parts;
    assert Join(parts, "\n") == VariantType(kind, unitType, m, names, fallback);
    forall i | 0 <= i < |parts| ensures '\n' !in parts[i] {
      if i < 3 {
        assert parts[i] == head[i];
      } else if i < 3 + |body| {
        assert parts[i] == body[i - 3];
      } else {
        assert parts[i] == last[0];
      }
    }
    SplitJoin(parts, '\n');
  }

  /** The variant type of a list of converted names, each on one line: one
      line per name in order, then the fallback as the last line. */
  lemma {:induction false} VariantTypeShape(kind: string, unitType: string, m: string, ids: seq<string>,
                         conv: string -> string, fallback: string)
    requires SingleLine(kind) && SingleLine(unitType) && SingleLine(m) && SingleLine(fallback)
    requires forall i :: 0 <= i < |ids| ==> SingleLine(conv(ids[i]))
    ensures var ls := Lines(VariantType(kind, unitType, m, Map(ids, conv), fallback));
      |ls| == 4 + (if ids == [] then 1 else |ids|)
      && ls[2] == TypeLine(kind, m)
      && (forall k :: 0 <= k < |ids| ==> ls[3 + k] == VariantLine(conv(ids[k])))
      && ls[|ls| - 1] == VariantLine(fallback)
  {
    var names := Map(ids, conv);
    VariantTypeLines(kind, unitType, m, names, fallback);
  }

  /** The module name of a one-line id is one line. */
  lemma {:induction false} ModuleOneLine(spec: Spec)
    requires SingleLine(spec.behaviorId)
    ensures SingleLine(ModuleOf(spec))
  {
    ModuleNameKeepsChar(spec.behaviorId, '\n');
  }

  /** One line per strategic behaviour, in input order, between the header and
      the single trailing `WithoutHome` line. */
  lemma {:induction false} StrategicTypeShape(spec: Spec)
    requires OneLineNames(spec)
    ensures var ls := Lines(StrategicBehaviorType(spec));
      var n := |spec.strategicBehaviors|;
      |ls| == 4 + (if n == 0 then 1 else n)
      && ls[2] == TypeLine("Strategic", ModuleOf(spec))
      && (forall k :: 0 <= k < n ==> ls[3 + k] == VariantLine(TypeName(spec.strategicBehaviors[k].strategicId)))
      && ls[|ls| - 1] == VariantLine("WithoutHome")
  {
    var ids := StrategicIds(spec);
    assert forall k :: 0 <= k < |ids| ==> ids[k] == spec.strategicBehaviors[k].strategicId;
    ModuleOneLine(spec);
    OneLineTypeNames(ids);
    VariantTypeShape("Strategic", spec.unitType, ModuleOf(spec), ids, TypeName, "WithoutHome");
    var ls := Lines(StrategicBehaviorType(spec));
    forall k | 0 <= k < |ids|
      ensures ls[3 + k] == VariantLine(TypeName(spec.strategicBehaviors[k].strategicId))
    {
      assert ids[k] == spec.strategicBehaviors[k].strategicId;
    }
  }

  /** One line per tactical behaviour, in input order, then `TacticalIdle`. */
  lemma {:induction false} TacticalTypeShape(spec: Spec)
    requires OneLineNames(spec)
    ensures var ls := Lines(TacticalBehaviorType(spec));
      var n := |spec.tacticalBehaviors|;
      |ls| == 4 + (if n == 0 then 1 else n)
      && ls[2] == TypeLine("Tactical", ModuleOf(spec))
      && (forall k :: 0 <= k < n ==> ls[3 + k] == VariantLine(TypeName(spec.tacticalBehaviors[k].tacticalId)))
      && ls[|ls| - 1] == VariantLine("TacticalIdle")
  {
    var ids := TacticalIds(spec);
    assert forall k :: 0 <= k < |ids| ==> ids[k] == spec.tacticalBehaviors[k].tacticalId;
    ModuleOneLine(spec);
    OneLineTypeNames(ids);
    VariantTypeShape("Tactical", spec.unitType, ModuleOf(spec), ids, TypeName, "TacticalIdle");
    var ls := Lines(TacticalBehaviorType(spec));
    forall k | 0 <= k < |ids|
      ensures ls[3 + k] == VariantLine(TypeName(spec.tacticalBehaviors[k].tacticalId))
    {
      assert ids[k] == spec.tacticalBehaviors[k].tacticalId;
    }
  }

  /** One line per operational behaviour, in input order, then `OperationalIdle`. */
  lemma {:induction false} OperationalTypeShape(spec: Spec)
    requires OneLineNames(spec)
    ensures var ls := Lines(OperationalBehaviorType(spec));
      var n := |spec.operationalBehaviors|;
      |ls| == 4 + (if n == 0 then 1 else n)
      && ls[2] == TypeLine("Operational", ModuleOf(spec))
      && (forall k :: 0 <= k < n ==> ls[3 + k] == VariantLine(TypeName(spec.operationalBehaviors[k].operationalId)))
      && ls[|ls| - 1] == VariantLine("OperationalIdle")
  {
    var ids := OperationalIds(spec);
    assert forall k :: 0 <= k < |ids| ==> ids[k] == spec.operationalBehaviors[k].operationalId;
    ModuleOneLine(spec);
    OneLineTypeNames(ids);
    VariantTypeShape("Operational", spec.unitType, ModuleOf(spec), ids, TypeName, "OperationalIdle");
    var ls := Lines(OperationalBehaviorType(spec));
    forall k | 0 <= k < |ids|
      ensures ls[3 + k] == VariantLine(TypeName(spec.operationalBehaviors[k].operationalId))
    {
      assert ids[k] == spec.operationalBehaviors[k].operationalId;
    }
  }

  // ---------------------------------------------------------------------------
  // Initial state

  /** The field line that sets the starting strategic behaviour. */
  function CurrentStrategicLine(first: string): string {
    "    { currentStrategic = " + first
  }

  function InitialStateLines(m: string, unitType: string, first: string): (r: seq<string>)
    ensures |r| == 14 && r[4] == CurrentStrategicLine(first) && r[5..] == StateDefaults
  {
    ["{-| Initialize state for " + unitType,
     "-}",
     "init" + m + "State : " + m + "State",
     "init" + m + "State =",
     CurrentStrategicLine(first)]
    + StateDefaults
  }

  /** The fields after the strategic behaviour, each at its starting value,
      and the closing brace. */
  const StateDefaults: seq<string> :=
    ["    , currentTactical = Nothing",
     "    , currentOperational = Nothing",
     "    , patrolRoute = []",
     "    , patrolIndex = 0",
     "    , perimeterPoints = []",
     "    , perimeterIndex = 0",
     "    , engagedTarget = Nothing",
     "    , interruptState = Nothing",
     "    }"]

  lemma {:induction false} StateDefaultsOneLine()
    ensures |StateDefaults| == 9
    ensures forall i :: 0 <= i < |StateDefaults| ==> SingleLine(StateDefaults[i])
  {
  }

  /** generateInitialState: the record literal whose strategic behaviour is
      the first one listed. The source reads `strategicBehaviors[0]` without a
      check, so an empty list is a caller error. */
  function InitialState(spec: Spec): string
    requires |spec.strategicBehaviors| > 0
  {
    Join(InitialStateLines(ModuleOf(spec), spec.unitType,
                           TypeName(spec.strategicBehaviors[0].strategicId)), "\n")
  }

  /** The initial state has fourteen lines and starts in the first strategic
      behaviour, with no tactical or operational behaviour chosen. */
  lemma {:induction false} InitialStateShape(spec: Spec)
    requires |spec.strategicBehaviors| > 0 && OneLineNames(spec)
    ensures var ls := Lines(InitialState(spec));
      |ls| == 14
      && ls[4] == CurrentStrategicLine(TypeName(spec.strategicBehaviors[0].strategicId))
      && ls[5] == "    , currentTactical = Nothing"
      && ls[6] == "    , currentOperational = Nothing"
  {
    var id := spec.strategicBehaviors[0].strategicId;
    assert SingleLine(id);
    ModuleNameKeepsChar(spec.behaviorId, '\n');
    TypeNameKeepsChar(id, '\n');
    InitialStateText(ModuleOf(spec), spec.unitType, TypeName(id));
  }

  /** The text of the initial state, read back line by line. */
  lemma {:induction false} InitialStateText(m: string, unitType: string, first: string)
    requires SingleLine(m) && SingleLine(unitType) && SingleLine(first)
    ensures var ls := Lines(Join(InitialStateLines(m, unitType, first), "\n"));
      |ls| == 14
      && ls[4] == CurrentStrategicLine(first)
      && ls[5] == "    , currentTactical = Nothing"
      && ls[6] == "    , currentOperational = Nothing"
  {
    InitialStateLinesOneLine(m, unitType, first);
    assert StateDefaults[0] == "    , currentTactical = Nothing";
    assert StateDefaults[1] == "    , currentOperational = Nothing";
  }

  lemma {:induction false} InitialStateLinesOneLine(m: string, unitType: string, first: string)
    requires SingleLine(m) && SingleLine(unitType) && SingleLine(first)
    ensures Lines(Join(InitialStateLines(m, unitType, first), "\n")) == InitialStateLines(m, unitType, first)
  {
    var ls := InitialStateLines(m, unitType, first);
    StateDefaultsOneLine();
    forall i | 0 <= i < |ls| ensures '\n' !in ls[i] {
      if i >= 5 {
        assert ls[i] == StateDefaults[i - 5];
      }
    }
    SplitJoin(ls, '\n');
  }

  // ---------------------------------------------------------------------------
  // Fixed sections of the module

  /** generateModuleHeader */
  function ModuleHeader(m: string, unitType: string): string {
    Join(HeaderLines(m, unitType), "\n")
  }

  function HeaderLines(m: string, unitType: string): (r: seq<string>)
    ensures |r| == 12 && r[0] == ModuleLine(m)
  {
    [ModuleLine(m),
     "    ( " + m + "State",
     "    , init" + m + "State",
     "    , update" + m,
     "    )",
     "",
     "{-| " + unitType + " Behavior Implementation",
     "",
     "Generated from behavior specification.",
     "",
     "@docs " + m + "State, init" + m + "State, update" + m,
     "-}"]
  }

  /** The first line of the generated module. */
  function ModuleLine(m: string): string {
    "module BehaviorEngine.Units." + m + " exposing"
  }

  /** generateImports */
  function Imports(): string {
    Join(["import BehaviorEngine.Types exposing (..)",
          "import BehaviorEngine.Actions as Actions",
          "import Types exposing (..)"], "\n")
  }

  /** generateStateTypes */
  function StateTypes(spec: Spec): string {
    var m := ModuleOf(spec);
    Join(["{-| State data for " + spec.unitType,
          "-}",
          "type alias " + m + "State =",
          "    { currentStrategic : Strategic" + m,
          "    , currentTactical : Maybe Tactical" + m,
          "    , currentOperational : Maybe Operational" + m,
          "    , patrolRoute : List Int",
          "    , patrolIndex : Int",
          "    , perimeterPoints : List ( Int, Int )",
          "    , perimeterIndex : Int",
          "    , engagedTarget : Maybe Int",
          "    , interruptState : Maybe InterruptState",
          "    }",
          "",
          "",
          "type alias InterruptState =",
          "    { previousTactical : Tactical" + m,
          "    , previousOperationalIndex : Int",
          "    }"], "\n")
  }

  /** generateUpdateFunction */
  function UpdateFunction(spec: Spec): string {
    var m := ModuleOf(spec);
    Join(["{-| Main update function for " + spec.unitType,
          "-}",
          "update" + m + " : BehaviorContext -> " + m + "State -> ( Unit, " + m + "State, Bool )",
          "update" + m + " context state =",
          "    let",
          "        -- Check active awareness (interrupts)",
          "        activeAwareness = checkActiveAwareness" + m + " context state",
          "",
          "        -- Handle interrupt if triggered",
          "        ( interruptedState, wasInterrupted ) =",
          "            case activeAwareness of",
          "                Just trigger ->",
          "                    handleInterrupt" + m + " state trigger",
          "",
          "                Nothing ->",
          "                    ( state, False )",
          "",
          "        -- Execute current behavior",
          "        ( updatedUnit, updatedState, needsPath ) =",
          "            if wasInterrupted then",
          "                executeStrategic" + m + " context interruptedState",
          "            else",
          "                executeStrategic" + m + " context state",
          "    in",
          "    ( updatedUnit, updatedState, needsPath )"], "\n")
  }
}
