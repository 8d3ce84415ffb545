/** The generated Elm module: twelve sections in a fixed order, separated by
    blank lines. */
module ElmModule {
  import opened Text
  import opened ElmNames
  import opened BehaviorSpec
  import opened ElmTypes
  import opened ElmHandlers
  import opened ElmAwareness

  /** The sections in the order the generator writes them: first the
      declarations (header, imports, types, initial state, update function),
      then the behaviour code (the three handler sections and the awareness
      functions). The strategic handlers read each strategic behaviour's
      first delegate and the initial state reads the first strategic
      behaviour, so both must exist. */
  function ModuleSections(spec: Spec): (r: seq<string>)
    requires |spec.strategicBehaviors| > 0 && Delegated(spec.strategicBehaviors)
  {
    Declarations(spec) + BehaviourCode(spec)
  }

  function Declarations(spec: Spec): (r: seq<string>)
    requires |spec.strategicBehaviors| > 0
    ensures |r| == 8 && r[0] == ModuleHeader(ModuleOf(spec), spec.unitType)
  {
    var m := ModuleOf(spec);
    [ModuleHeader(m, spec.unitType),
     Imports(),
     StateTypes(spec),
     StrategicBehaviorType(spec),
     TacticalBehaviorType(spec),
     OperationalBehaviorType(spec),
     InitialState(spec),
     UpdateFunction(spec)]
  }

  function BehaviourCode(spec: Spec): (r: seq<string>)
    requires Delegated(spec.strategicBehaviors)
    ensures |r| == 4
  {
    [Unlines(StrategicHandlersLines(spec)),
     Unlines(TacticalHandlersLines(spec)),
     Unlines(OperationalHandlersLines(spec)),
     Unlines(AwarenessLines(spec))]
  }

  function ElmModuleText(spec: Spec): string
    requires |spec.strategicBehaviors| > 0 && Delegated(spec.strategicBehaviors)
  {
    Join(ModuleSections(spec), "\n\n")
  }

  /** Appends the `i`-th section after the separator the previous one
      left. */
  method AddSection(code: string, ghost parts: seq<string>, ghost i: nat, section: string) returns (next: string)
    requires 0 < i < |parts| && section == parts[i]
    requires code == Join(parts[..i], "\n\n") + "\n\n"
    ensures next == Join(parts[..i + 1], "\n\n")
  {
    next := code + section;
    JoinAppend(parts[..i], [section], "\n\n");
    assert parts[..i] + [section] == parts[..i + 1];
  }

  /** generateElmModule: the twelve sections in order, each but the last
      followed by a blank line. */
  method GenerateElmModule(spec: Spec) returns (code: string)
    requires |spec.strategicBehaviors| > 0 && Delegated(spec.strategicBehaviors)
    ensures code == ElmModuleText(spec)
  {
    var behaviour := EmitBehaviourCode(spec);
    code := Assemble(Declarations(spec) + behaviour);
  }

  method EmitBehaviourCode(spec: Spec) returns (r: seq<string>)
    requires Delegated(spec.strategicBehaviors)
    ensures r == BehaviourCode(spec)
  {
    var strategic := GenerateStrategicHandlers(spec);
    var tactical := GenerateTacticalHandlers(spec);
    var operational := GenerateOperationalHandlers(spec);
    var awareness := GenerateAwarenessFunctions(spec);
    r := [strategic, tactical, operational, awareness];
  }

  /** The generated text opens with the module declaration line, the first
      line of the header section. */
  lemma {:induction false} ModuleOpens(spec: Spec)
    requires |spec.strategicBehaviors| > 0 && Delegated(spec.strategicBehaviors)
    ensures StartsWith(ElmModuleText(spec), ModuleLine(ModuleOf(spec)) + "\n")
  {
    var parts := Declarations(spec) + BehaviourCode(spec);
    var hs := HeaderLines(ModuleOf(spec), spec.unitType);
    assert parts[0] == Join(hs, "\n");
    FirstLineFirst(parts, "\n\n", hs, "\n");
  }

  /** When the first part is itself joined from lines, the whole text starts
      with the first of those lines and its separator. */
  lemma {:induction false} FirstLineFirst(parts: seq<string>, sep: string, ls: seq<string>, lsep: string)
    requires |parts| >= 2 && |ls| >= 2 && parts[0] == Join(ls, lsep)
    ensures StartsWith(Join(parts, sep), ls[0] + lsep)
  {
    var first := ls[0] + lsep;
    var later := Join(ls[1..], lsep) + sep + Join(parts[1..], sep);
    assert Join(parts, sep) == first + later;
    assert (first + later)[..|first|] == first;
  }

  /** Writes the sections one after another with a blank line between
      consecutive ones. */
  method Assemble(parts: seq<string>) returns (code: string)
    requires |parts| == 12
    ensures code == Join(parts, "\n\n")
  {
    code := "";
    code := code + parts[0];
    assert parts[..1] == [parts[0]];
    code := code + "\n\n";
    code := AddSection(code, parts, 1, parts[1]);
    code := code + "\n\n";
    code := AddSection(code, parts, 2, parts[2]);
    code := code + "\n\n";
    code := AddSection(code, parts, 3, parts[3]);
    code := code + "\n\n";
    code := AddSection(code, parts, 4, parts[4]);
    code := code + "\n\n";
    code := AddSection(code, parts, 5, parts[5]);
    code := code + "\n\n";
    code := AddSection(code, parts, 6, parts[6]);
    code := code + "\n\n";
    code := AddSection(code, parts, 7, parts[7]);
    code := code + "\n\n";
    code := AddSection(code, parts, 8, parts[8]);
    code := code + "\n\n";
    code := AddSection(code, parts, 9, parts[9]);
    code := code + "\n\n";
    code := AddSection(code, parts, 10, parts[10]);
    code := code + "\n\n";
    code := AddSection(code, parts, 11, parts[11]);
    assert parts[..12] == parts;
  }
}
