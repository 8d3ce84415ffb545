/** The behaviour handlers and awareness functions of the Elm generator
    (tools/json-to-elm.js). Each generator builds its text by appending
    pieces in `forEach` loops; here each is a method with a loop, proved to
    produce the text of a list of lines given by a function of the
    specification, and the lemmas below say where each behaviour's lines sit
    in that list. */
module ElmHandlers {
  import opened Text
  import opened ElmNames
  import opened BehaviorSpec
  import opened ElmTypes

  // ---------------------------------------------------------------------------
  // Lines shared by the handler sections

  /** The type signature of a handler of the unit's state. */
  function Signature(name: string, m: string): string {
    name + " : BehaviorContext -> " + m + "State -> ( Unit, " + m + "State, Bool )"
  }

  /** The first line of a handler's definition. */
  function DefLine(name: string): string {
    name + " context state ="
  }

  /** The line of a `case` branch that calls a handler. */
  function CallLine(name: string): string {
    "            " + name + " context state"
  }

  /** The result that leaves the unit and the state alone. */
  const NoChange := "            ( context.unit, state, False )"

  /** The name of the handler of one behaviour at `level`
      (`handleStrategic`, `handleTactical`, `handleOperational`). */
  function HandlerName(level: string, id: string): string {
    "handle" + level + TypeName(id)
  }

  /** A `case` branch: the pattern, the call of `handler`, a blank line. */
  function Arm(pattern: string, handler: string): (r: seq<string>)
    ensures |r| == 3
  {
    ["        " + pattern + " ->", CallLine(handler), ""]
  }

  /** The opening of `execute<Level><Module>`: a `case` on the current
      behaviour of `level` whose `Nothing` branch changes nothing. */
  function ExecuteHead(title: string, level: string, m: string): (r: seq<string>)
    ensures |r| == 8
  {
    [title, "",
     Signature("execute" + level + m, m),
     DefLine("execute" + level + m),
     "    case state.current" + level + " of",
     "        Nothing ->",
     NoChange,
     ""]
  }

  /** The branch of a `case` on `Just <fallback>` that changes nothing. */
  function IdleArm(fallback: string): (r: seq<string>)
    ensures |r| == 3
  {
    ["        Just " + fallback + " ->", NoChange, ""]
  }

  /** The two `forEach` loops of every handler generator after its opening
      `head`: one dispatch branch per behaviour, the closing branch `idle`,
      one handler per behaviour, then `tail`. */
  method EmitHandlers(head: seq<string>, arms: seq<seq<string>>, idle: seq<string>,
                      blocks: seq<seq<string>>, tail: seq<string>) returns (code: string)
    ensures code == Unlines(head + Concat(arms) + idle + Concat(blocks) + tail)
  {
    code := Unlines(head);
    var i := 0;
    BlocksEnds(head, arms);
    while i < |arms|
      invariant 0 <= i <= |arms|
      invariant code == Unlines(head + Concat(arms[..i]))
    {
      code := code + Unlines(arms[i]);
      UnlinesBlockStep(head, arms, i);
      i := i + 1;
    }
    code := code + Unlines(idle);
    var dispatch := head + Concat(arms) + idle;
    UnlinesAppend(head + Concat(arms), idle);
    var j := 0;
    BlocksEnds(dispatch, blocks);
    while j < |blocks|
      invariant 0 <= j <= |blocks|
      invariant code == Unlines(dispatch + Concat(blocks[..j]))
    {
      code := code + Unlines(blocks[j]);
      UnlinesBlockStep(dispatch, blocks, j);
      j := j + 1;
    }
    code := code + Unlines(tail);
    UnlinesAppend(dispatch + Concat(blocks), tail);
  }

  /** Where `EmitHandlers` puts the `k`-th dispatch branch: after the head
      and the branches before it. */
  lemma {:induction false} ArmPlacement(head: seq<string>, arms: seq<seq<string>>, la: nat, idle: seq<string>,
                     blocks: seq<seq<string>>, tail: seq<string>, k: nat)
    requires forall i :: 0 <= i < |arms| ==> |arms[i]| == la
    requires k < |arms|
    ensures |head| + la * k + la <= |head + Concat(arms) + idle + Concat(blocks) + tail|
    ensures (head + Concat(arms) + idle + Concat(blocks) + tail)[|head| + la * k..|head| + la * k + la] == arms[k]
  {
    BlockAfter(head, arms, la, idle + Concat(blocks) + tail, k);
    assert head + Concat(arms) + (idle + Concat(blocks) + tail) == head + Concat(arms) + idle + Concat(blocks) + tail;
  }

  /** Where `EmitHandlers` puts the `k`-th handler: after the head, all the
      dispatch branches, the closing branch and the handlers before it. */
  lemma {:induction false} BlockPlacement(head: seq<string>, arms: seq<seq<string>>, idle: seq<string>,
                       blocks: seq<seq<string>>, lb: nat, tail: seq<string>, k: nat)
    requires forall i :: 0 <= i < |blocks| ==> |blocks[i]| == lb
    requires k < |blocks|
    ensures var s := |head + Concat(arms) + idle|;
            s + lb * k + lb <= |head + Concat(arms) + idle + Concat(blocks) + tail|
    ensures var s := |head + Concat(arms) + idle|;
            (head + Concat(arms) + idle + Concat(blocks) + tail)[s + lb * k..s + lb * k + lb] == blocks[k]
  {
    BlockAfter(head + Concat(arms) + idle, blocks, lb, tail, k);
  }

  /** The closing branch sits right after the dispatch branches, and the
      tail ends the text. */
  lemma {:induction false} HandlersFrame(head: seq<string>, arms: seq<seq<string>>, la: nat, idle: seq<string>,
                      blocks: seq<seq<string>>, lb: nat, tail: seq<string>)
    requires forall i :: 0 <= i < |arms| ==> |arms[i]| == la
    requires forall i :: 0 <= i < |blocks| ==> |blocks[i]| == lb
    ensures var ls := head + Concat(arms) + idle + Concat(blocks) + tail;
            var s := |head| + la * |arms| + |idle|;
            |ls| == s + lb * |blocks| + |tail|
            && ls[|head| + la * |arms|..s] == idle
            && ls[|ls| - |tail|..] == tail
  {
    ConcatLength(arms, la);
    ConcatLength(blocks, lb);
    MiddleSlice(head + Concat(arms), idle, Concat(blocks) + tail, 0, |idle|);
    assert head + Concat(arms) + idle + (Concat(blocks) + tail) == head + Concat(arms) + idle + Concat(blocks) + tail;
  }

  /** The opening of a handler: a blank line, its signature, its
      definition. */
  function Opening(name: string, m: string): (r: seq<string>)
    ensures |r| == 3
  {
    ["", Signature(name, m), DefLine(name)]
  }

  /** The line after the signature defines the handler. */
  lemma {:induction false} OpeningDefines(name: string, m: string, body: seq<string>)
    ensures (Opening(name, m) + body)[2] == DefLine(name)
  {
  }

  /** Line `i` of a handler's body is line `3 + i` of the handler. */
  lemma {:induction false} OpeningBody(name: string, m: string, body: seq<string>, i: nat)
    requires i < |body|
    ensures (Opening(name, m) + body)[3 + i] == body[i]
  {
  }

  /** The start of a `case` on the current behaviour of `level` whose
      `Nothing` branch starts the first behaviour of that level. */
  function StartCase(level: string, first: string): (r: seq<string>)
    ensures |r| == 4
  {
    ["    case state.current" + level + " of",
     "        Nothing ->",
     "            -- Start with first " + first,
     "            let"]
  }

  /** The end of that `case`: run `execute<level><module>` on the new state,
      or on the unchanged state when a behaviour of `level` is current. */
  function RunCase(level: string, current: string, m: string): (r: seq<string>)
    ensures |r| == 5
  {
    ["            in",
     "            execute" + level + m + " context newState",
     "",
     "        Just " + current + " ->",
     "            execute" + level + m + " context state"]
  }

  // ---------------------------------------------------------------------------
  // Strategic handlers

  function StrategicHead(m: string): (r: seq<string>)
    ensures |r| == 5
  {
    ["-- STRATEGIC BEHAVIOR HANDLERS", "",
     Signature("executeStrategic" + m, m),
     DefLine("executeStrategic" + m),
     "    case state.currentStrategic of"]
  }

  /** The dispatch of one strategic behaviour to its handler. */
  function StrategicArm(s: Strategic): (r: seq<string>)
    ensures |r| == 3
  {
    Arm(TypeName(s.strategicId), HandlerName("Strategic", s.strategicId))
  }

  /** The branch for a homeless unit: it does nothing. */
  function WithoutHomeArm(): (r: seq<string>)
    ensures |r| == 4
  {
    ["        WithoutHome ->", "            -- Unit is homeless, no actions", NoChange, ""]
  }

  /** The line that starts a tactical behaviour. */
  function StartTacticalLine(name: string): string {
    "                newState = { state | currentTactical = Just " + name + " }"
  }

  /** Every strategic behaviour names at least one tactical delegate (the
      generator reads the first one). */
  predicate Delegated(ss: seq<Strategic>) {
    forall i :: 0 <= i < |ss| ==> |ss[i].tacticalDelegates| > 0
  }

  /** The handler of one strategic behaviour: with no current tactical
      behaviour it starts the first delegate, otherwise it runs the current
      one. */
  function StrategicBlock(m: string, s: Strategic): (r: seq<string>)
    requires |s.tacticalDelegates| > 0
    ensures |r| == 14
  {
    Opening(HandlerName("Strategic", s.strategicId), m) + StrategicBody(m, s)
  }

  function StrategicBody(m: string, s: Strategic): (r: seq<string>)
    requires |s.tacticalDelegates| > 0
    ensures |r| == 11
  {
    DelegateLines(Join(s.tacticalDelegates, ", "), TypeName(s.tacticalDelegates[0]), m)
  }

  /** A strategic handler's body, given the comma-separated delegate list and
      the Elm name of the delegate it starts with. */
  function DelegateLines(delegates: string, first: string, m: string): (r: seq<string>)
    ensures |r| == 11
  {
    ["    -- Delegates to tactical behaviors: " + delegates]
    + StartCase("Tactical", "tactical delegate")
    + [StartTacticalLine(first)]
    + RunCase("Tactical", "tactical", m)
  }

  /** With no tactical behaviour running, the handler starts the given one. */
  lemma {:induction false} DelegateLinesStart(delegates: string, first: string, m: string)
    ensures DelegateLines(delegates, first, m)[5] == StartTacticalLine(first)
  {
  }

  function StrategicArms(ss: seq<Strategic>): (r: seq<seq<string>>)
    ensures |r| == |ss|
  {
    seq(|ss|, i requires 0 <= i < |ss| => StrategicArm(ss[i]))
  }

  function StrategicBlocks(m: string, ss: seq<Strategic>): (r: seq<seq<string>>)
    requires Delegated(ss)
    ensures |r| == |ss|
  {
    seq(|ss|, i requires 0 <= i < |ss| => StrategicBlock(m, ss[i]))
  }

  /** The lines of `generateStrategicHandlers(spec)`. */
  function StrategicHandlersLines(spec: Spec): seq<string>
    requires Delegated(spec.strategicBehaviors)
  {
    var m := ModuleOf(spec);
    var ss := spec.strategicBehaviors;
    StrategicHead(m) + Concat(StrategicArms(ss)) + WithoutHomeArm() + Concat(StrategicBlocks(m, ss))
  }

  method GenerateStrategicHandlers(spec: Spec) returns (code: string)
    requires Delegated(spec.strategicBehaviors)
    ensures code == Unlines(StrategicHandlersLines(spec))
  {
    var m := ModuleName(spec.behaviorId);
    var ss := spec.strategicBehaviors;
    code := EmitHandlers(StrategicHead(m), StrategicArms(ss), WithoutHomeArm(), StrategicBlocks(m, ss), []);
    assert StrategicHandlersLines(spec) + [] == StrategicHandlersLines(spec);
  }

  /** Every handler the dispatch calls is defined: the `k`-th dispatch branch
      calls the handler whose definition opens the `k`-th handler block. */
  lemma {:induction false} StrategicDispatchDefined(spec: Spec, k: nat)
    requires Delegated(spec.strategicBehaviors)
    requires k < |spec.strategicBehaviors|
    ensures var ss := spec.strategicBehaviors;
            var h := HandlerName("Strategic", ss[k].strategicId);
            StrategicArms(ss)[k][1] == CallLine(h)
            && StrategicBlocks(ModuleOf(spec), ss)[k][2] == DefLine(h)
  {
    var ss := spec.strategicBehaviors;
    var m := ModuleOf(spec);
    assert StrategicBlocks(m, ss)[k] == StrategicBlock(m, ss[k]);
    OpeningDefines(HandlerName("Strategic", ss[k].strategicId), m, StrategicBody(m, ss[k]));
  }

  /** The handler of the `k`-th strategic behaviour starts its first
      delegate, a constructor of the tactical type whenever the delegate is
      one of the tactical behaviours. */
  lemma {:induction false} StrategicStartsFirstDelegate(spec: Spec, k: nat)
    requires Delegated(spec.strategicBehaviors)
    requires k < |spec.strategicBehaviors|
    ensures var ss := spec.strategicBehaviors;
            var first := ss[k].tacticalDelegates[0];
            StrategicBlocks(ModuleOf(spec), ss)[k][8] == StartTacticalLine(TypeName(first))
            && (first in TacticalIds(spec) ==> TypeName(first) in TacticalVariantNames(spec))
  {
    var ss := spec.strategicBehaviors;
    var m := ModuleOf(spec);
    var s := ss[k];
    var first := s.tacticalDelegates[0];
    assert StrategicBlocks(m, ss)[k] == StrategicBlock(m, s);
    OpeningBody(HandlerName("Strategic", s.strategicId), m, StrategicBody(m, s), 5);
    DelegateLinesStart(Join(s.tacticalDelegates, ", "), TypeName(first), m);
    if first in TacticalIds(spec) {
      MapMember(TacticalIds(spec), TypeName, first);
    }
  }

  /** The constructors of the tactical type: one per tactical behaviour, then
      `TacticalIdle`. */
  function TacticalVariantNames(spec: Spec): seq<string> {
    Map(TacticalIds(spec), TypeName) + ["TacticalIdle"]
  }

  /** The constructors of the operational type: one per operational
      behaviour, then `OperationalIdle`. */
  function OperationalVariantNames(spec: Spec): seq<string> {
    Map(OperationalIds(spec), TypeName) + ["OperationalIdle"]
  }

  // ---------------------------------------------------------------------------
  // Tactical handlers

  function TacticalHead(m: string): (r: seq<string>)
    ensures |r| == 8
  {
    ExecuteHead("-- TACTICAL BEHAVIOR HANDLERS", "Tactical", m)
  }

  function TacticalArm(t: Tactical): (r: seq<string>)
    ensures |r| == 3
  {
    Arm("Just " + TypeName(t.tacticalId), HandlerName("Tactical", t.tacticalId))
  }

  /** The operational step a tactical behaviour starts with: its first step,
      or `OperationalIdle` when its sequence is empty. */
  function FirstOperational(t: Tactical): string {
    if |t.operationalSequence| > 0 then TypeName(t.operationalSequence[0]) else "OperationalIdle"
  }

  /** The comment listing at most the first three steps of a sequence. */
  function SequenceComment(steps: seq<string>): string {
    "    -- Operational sequence: " + Join(steps[..if |steps| < 3 then |steps| else 3], ", ") + "..."
  }

  function FirstOpLine(name: string): string {
    "                firstOp = " + name
  }

  /** The handler of one tactical behaviour: with no current operational
      step it starts the first one, otherwise it runs the current one. */
  function TacticalBlock(m: string, t: Tactical): (r: seq<string>)
    ensures |r| == 17
  {
    Opening(HandlerName("Tactical", t.tacticalId), m) + TacticalBody(m, t)
  }

  function TacticalBody(m: string, t: Tactical): (r: seq<string>)
    ensures |r| == 14
  {
    StepLines(SequenceComment(t.operationalSequence), t.successCondition,
              t.failureCondition, FirstOperational(t), m)
  }

  /** A tactical handler's body, given its comment texts and the Elm name of
      the operational step it starts with. */
  function StepLines(comment: string, success: string, failure: string, first: string, m: string): (r: seq<string>)
    ensures |r| == 14
  {
    [comment, "    -- Success: " + success, "    -- Failure: " + failure]
    + StartCase("Operational", "operational step")
    + [FirstOpLine(first),
       "                newState = { state | currentOperational = Just firstOp }"]
    + RunCase("Operational", "operational", m)
  }

  /** With no operational step running, the handler starts the given one. */
  lemma {:induction false} StepLinesStart(comment: string, success: string, failure: string, first: string, m: string)
    ensures StepLines(comment, success, failure, first, m)[7] == FirstOpLine(first)
  {
  }

  /** After the handlers the generator emits a second `Just TacticalIdle`
      branch, outside any `case`. */
  function TacticalTail(): (r: seq<string>)
    ensures |r| == 3
  {
    ["", "        Just TacticalIdle ->", NoChange]
  }

  function TacticalArms(ts: seq<Tactical>): (r: seq<seq<string>>)
    ensures |r| == |ts|
  {
    seq(|ts|, i requires 0 <= i < |ts| => TacticalArm(ts[i]))
  }

  function TacticalBlocks(m: string, ts: seq<Tactical>): (r: seq<seq<string>>)
    ensures |r| == |ts|
  {
    seq(|ts|, i requires 0 <= i < |ts| => TacticalBlock(m, ts[i]))
  }

  /** The lines of `generateTacticalHandlers(spec)`. */
  function TacticalHandlersLines(spec: Spec): seq<string> {
    var m := ModuleOf(spec);
    var ts := spec.tacticalBehaviors;
    TacticalHead(m) + Concat(TacticalArms(ts)) + IdleArm("TacticalIdle")
    + Concat(TacticalBlocks(m, ts)) + TacticalTail()
  }

  method GenerateTacticalHandlers(spec: Spec) returns (code: string)
    ensures code == Unlines(TacticalHandlersLines(spec))
  {
    var m := ModuleName(spec.behaviorId);
    var ts := spec.tacticalBehaviors;
    code := EmitHandlers(TacticalHead(m), TacticalArms(ts), IdleArm("TacticalIdle"), TacticalBlocks(m, ts), TacticalTail());
  }

  /** The `Just TacticalIdle` branch that closes the dispatch appears a
      second time after the last handler. */
  lemma {:induction false} TacticalIdleTwice()
    ensures IdleArm("TacticalIdle")[0] == TacticalTail()[1] == "        Just TacticalIdle ->"
  {
  }

  /** Every handler the dispatch calls is defined: the `k`-th dispatch branch
      calls the handler whose definition opens the `k`-th handler block. */
  lemma {:induction false} TacticalDispatchDefined(spec: Spec, k: nat)
    requires k < |spec.tacticalBehaviors|
    ensures var ts := spec.tacticalBehaviors;
            var h := HandlerName("Tactical", ts[k].tacticalId);
            TacticalArms(ts)[k][1] == CallLine(h)
            && TacticalBlocks(ModuleOf(spec), ts)[k][2] == DefLine(h)
  {
    var ts := spec.tacticalBehaviors;
    var m := ModuleOf(spec);
    assert TacticalBlocks(m, ts)[k] == TacticalBlock(m, ts[k]);
    OpeningDefines(HandlerName("Tactical", ts[k].tacticalId), m, TacticalBody(m, ts[k]));
  }

  /** The handler of the `k`-th tactical behaviour starts a constructor of the
      operational type whenever the behaviour's first step is one of the
      operational behaviours (`OperationalIdle` for an empty sequence). */
  lemma {:induction false} TacticalStartsFirstStep(spec: Spec, k: nat)
    requires k < |spec.tacticalBehaviors|
    ensures var ts := spec.tacticalBehaviors;
            var t := ts[k];
            TacticalBlocks(ModuleOf(spec), ts)[k][10] == FirstOpLine(FirstOperational(t))
            && (t.operationalSequence == [] || t.operationalSequence[0] in OperationalIds(spec) ==>
                  FirstOperational(t) in OperationalVariantNames(spec))
  {
    var ts := spec.tacticalBehaviors;
    var m := ModuleOf(spec);
    var t := ts[k];
    assert TacticalBlocks(m, ts)[k] == TacticalBlock(m, t);
    OpeningBody(HandlerName("Tactical", t.tacticalId), m, TacticalBody(m, t), 7);
    StepLinesStart(SequenceComment(t.operationalSequence), t.successCondition,
                   t.failureCondition, FirstOperational(t), m);
    if t.operationalSequence != [] && t.operationalSequence[0] in OperationalIds(spec) {
      MapMember(OperationalIds(spec), TypeName, t.operationalSequence[0]);
    }
  }

  // ---------------------------------------------------------------------------
  // Operational handlers

  function OperationalHead(m: string): (r: seq<string>)
    ensures |r| == 8
  {
    ExecuteHead("-- OPERATIONAL BEHAVIOR HANDLERS", "Operational", m)
  }

  function OperationalArm(o: Operational): (r: seq<string>)
    ensures |r| == 3
  {
    Arm("Just " + TypeName(o.operationalId), HandlerName("Operational", o.operationalId))
  }

  /** The action a handler documents: `NoAction` for an empty action. */
  function ActionOf(o: Operational): string {
    if o.action == "" then "NoAction" else o.action
  }

  /** The handler of one operational behaviour: a stub that changes nothing. */
  function OperationalBlock(m: string, o: Operational): (r: seq<string>)
    ensures |r| == 7
  {
    Opening(HandlerName("Operational", o.operationalId), m) + OperationalBody(o)
  }

  /** The body of an operational handler: a stub that changes nothing. */
  function OperationalBody(o: Operational): (r: seq<string>)
    ensures |r| == 4
  {
    StubLines(ActionOf(o), o.successCondition)
  }

  function StubLines(action: string, success: string): (r: seq<string>)
    ensures |r| == 4
  {
    ["    -- Action: " + action,
     "    -- Success: " + success,
     "    -- TODO: Implement operational logic",
     "    ( context.unit, state, False )"]
  }

  lemma {:induction false} StubLinesAction(action: string, success: string)
    ensures StubLines(action, success)[0] == "    -- Action: " + action
  {
  }

  function OperationalArms(os: seq<Operational>): (r: seq<seq<string>>)
    ensures |r| == |os|
  {
    seq(|os|, i requires 0 <= i < |os| => OperationalArm(os[i]))
  }

  function OperationalBlocks(m: string, os: seq<Operational>): (r: seq<seq<string>>)
    ensures |r| == |os|
  {
    seq(|os|, i requires 0 <= i < |os| => OperationalBlock(m, os[i]))
  }

  /** The lines of `generateOperationalHandlers(spec)`. */
  function OperationalHandlersLines(spec: Spec): seq<string> {
    var m := ModuleOf(spec);
    var os := spec.operationalBehaviors;
    OperationalHead(m) + Concat(OperationalArms(os)) + IdleArm("OperationalIdle")
    + Concat(OperationalBlocks(m, os))
  }

  method GenerateOperationalHandlers(spec: Spec) returns (code: string)
    ensures code == Unlines(OperationalHandlersLines(spec))
  {
    var m := ModuleName(spec.behaviorId);
    var os := spec.operationalBehaviors;
    code := EmitHandlers(OperationalHead(m), OperationalArms(os), IdleArm("OperationalIdle"), OperationalBlocks(m, os), []);
    assert OperationalHandlersLines(spec) + [] == OperationalHandlersLines(spec);
  }

  /** Every handler the dispatch calls is defined, and documents the
      behaviour's action, or `NoAction` when it has none. */
  lemma {:induction false} OperationalDispatchDefined(spec: Spec, k: nat)
    requires k < |spec.operationalBehaviors|
    ensures var os := spec.operationalBehaviors;
            var o := os[k];
            var h := HandlerName("Operational", o.operationalId);
            var block := OperationalBlocks(ModuleOf(spec), os)[k];
            OperationalArms(os)[k][1] == CallLine(h)
            && block[2] == DefLine(h)
            && (o.action == "" ==> block[3] == "    -- Action: " + "NoAction")
            && (o.action != "" ==> block[3] == "    -- Action: " + o.action)
  {
    var os := spec.operationalBehaviors;
    var m := ModuleOf(spec);
    var o := os[k];
    assert OperationalBlocks(m, os)[k] == OperationalBlock(m, o);
    OpeningDefines(HandlerName("Operational", o.operationalId), m, OperationalBody(o));
    OpeningBody(HandlerName("Operational", o.operationalId), m, OperationalBody(o), 0);
    StubLinesAction(ActionOf(o), o.successCondition);
  }
}
