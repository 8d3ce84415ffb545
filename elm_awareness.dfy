/** The awareness section of the generated Elm module: the function that
    checks every active awareness in turn and reports the first that fires,
    one stub check per active awareness, the interrupt handler that switches
    to the forced tactical behaviour, and the record type of a trigger. */
module ElmAwareness {
  import opened Text
  import opened ElmNames
  import opened BehaviorSpec
  import opened ElmTypes
  import opened ElmHandlers

  function ActiveIds(active: seq<ActiveAwareness>): (r: seq<string>)
    ensures |r| == |active|
  {
    seq(|active|, i requires 0 <= i < |active| => active[i].awarenessId)
  }

  /** The section title and the checker's signature, definition and comment;
      the generator leaves a pending indentation of four spaces after them. */
  function AwarenessHead(m: string, ids: seq<string>): (r: seq<string>)
    ensures |r| == 5
  {
    ["-- AWARENESS FUNCTIONS",
     "",
     "checkActiveAwareness" + m + " : BehaviorContext -> " + m + "State -> Maybe ActiveAwarenessTrigger",
     "checkActiveAwareness" + m + " context state =",
     "    -- Active awareness types: " + Join(ids, ", ")]
  }

  /** Every branch but the first is preceded by `    else`, which the
      generator glues to the `if` that follows. */
  function ElseWord(k: nat): string {
    if k == 0 then "" else "    else"
  }

  function IfCheck(t: string): string {
    "if check" + t + " context then"
  }

  function BranchOpen(k: nat, t: string): string {
    ElseWord(k) + IfCheck(t)
  }

  /** What a branch returns: the trigger record. */
  function TriggerLines(id: string, forced: string, priority: string): (r: seq<string>)
    ensures |r| == 5
  {
    ["        Just",
     "            { awarenessType = \"" + id + "\"",
     "            , forcedTactical = " + forced,
     "            , priority = " + priority,
     "            }"]
  }

  function ForcedLine(forced: string): string {
    "            , forcedTactical = " + forced
  }

  /** The `k`-th branch of the checker, opened on the pending indentation. */
  function Branch(k: nat, a: ActiveAwareness): (r: seq<string>)
    ensures |r| == 6
  {
    BranchLines(k, TypeName(a.awarenessId), a.awarenessId, TypeName(a.forcedBehavior), a.priority)
  }

  function BranchLines(k: nat, t: string, id: string, forced: string, priority: string): (r: seq<string>)
    ensures |r| == 6
  {
    ["    " + BranchOpen(k, t)] + TriggerLines(id, forced, priority)
  }

  /** A branch tests the check of its awareness and returns a trigger that
      forces the given behaviour. */
  lemma {:induction false} BranchLinesFacts(k: nat, t: string, id: string, forced: string, priority: string)
    ensures BranchLines(k, t, id, forced, priority)[0] == "    " + BranchOpen(k, t)
    ensures BranchLines(k, t, id, forced, priority)[3] == ForcedLine(forced)
  {
  }

  function Branches(active: seq<ActiveAwareness>): (r: seq<seq<string>>)
    ensures |r| == |active|
    ensures forall i :: 0 <= i < |r| ==> |r[i]| == 6
  {
    seq(|active|, i requires 0 <= i < |active| => Branch(i, active[i]))
  }

  /** After the branches: a final `else Nothing`, or just `Nothing` when
      there is no active awareness at all. The first word is written on the
      pending indentation. */
  function EndWord(n: nat): string {
    if n == 0 then "Nothing" else "else"
  }

  function EndRest(n: nat): (r: seq<string>)
    ensures |r| == (if n == 0 then 1 else 2)
  {
    if n == 0 then [""] else ["        Nothing", ""]
  }

  function EndLines(n: nat): (r: seq<string>)
    ensures |r| == (if n == 0 then 2 else 3)
  {
    ["    " + EndWord(n)] + EndRest(n)
  }

  /** The stub check function of one active awareness. */
  function CheckBlock(t: string, description: string, trigger: string): (r: seq<string>)
    ensures |r| == 7
  {
    ["",
     "check" + t + " : BehaviorContext -> Bool",
     CheckDef(t),
     "    -- " + description,
     "    -- Trigger: " + trigger,
     "    -- TODO: Implement awareness check",
     "    False"]
  }

  function CheckDef(t: string): string {
    "check" + t + " context ="
  }

  lemma {:induction false} CheckBlockDefines(t: string, description: string, trigger: string)
    ensures CheckBlock(t, description, trigger)[2] == CheckDef(t)
  {
  }

  function CheckBlocks(active: seq<ActiveAwareness>): (r: seq<seq<string>>)
    ensures |r| == |active|
    ensures forall i :: 0 <= i < |r| ==> |r[i]| == 7
  {
    seq(|active|, i requires 0 <= i < |active| =>
      CheckBlock(TypeName(active[i].awarenessId), active[i].description, active[i].triggerCondition))
  }

  /** The interrupt handler: remember the running tactical behaviour, switch
      to the forced one and drop the running operational step. */
  function InterruptLines(m: string): (r: seq<string>)
    ensures |r| == 23
  {
    ["",
     "",
     "handleInterrupt" + m + " : " + m + "State -> ActiveAwarenessTrigger -> ( " + m + "State, Bool )",
     "handleInterrupt" + m + " state trigger =",
     "    -- Save current state for potential resume",
     "    let",
     "        interruptState =",
     "            case state.currentTactical of",
     "                Just tactical ->",
     "                    Just { previousTactical = tactical, previousOperationalIndex = 0 }",
     "",
     "                Nothing ->",
     "                    Nothing",
     "",
     "        newState =",
     "            { state",
     "                | currentTactical = Just trigger.forcedTactical",
     "                , currentOperational = Nothing",
     "                , interruptState = interruptState",
     "            }",
     "    in",
     "    ( newState, True )",
     ""]
  }

  function TriggerAlias(m: string): (r: seq<string>)
    ensures |r| == 6
  {
    ["",
     "type alias ActiveAwarenessTrigger =",
     "    { awarenessType : String",
     "    , forcedTactical : Tactical" + m,
     "    , priority : Priority",
     "    }"]
  }

  /** The whole awareness section, line by line. */
  function AwarenessLines(spec: Spec): seq<string> {
    var m := ModuleOf(spec);
    AwarenessHead(m, ActiveIds(spec.active)) + Concat(Branches(spec.active))
    + EndLines(|spec.active|) + Concat(CheckBlocks(spec.active))
    + InterruptLines(m) + TriggerAlias(m)
  }

  /** Builds the section as the generator does: the checker, then a stub
      check per active awareness, then the interrupt handler and the trigger
      type. */
  method GenerateAwarenessFunctions(spec: Spec) returns (code: string)
    ensures code == Unlines(AwarenessLines(spec))
  {
    var m := ModuleOf(spec);
    var active := spec.active;
    var ended := AwarenessHead(m, ActiveIds(active)) + Concat(Branches(active)) + EndLines(|active|);
    code := EmitChecker(m, active);
    var checks := CheckBlocks(active);
    code := AppendBlocks(code, ended, checks);
    code := code + Unlines(InterruptLines(m));
    UnlinesAppend(ended + Concat(checks), InterruptLines(m));
    code := code + Unlines(TriggerAlias(m));
    UnlinesAppend(ended + Concat(checks) + InterruptLines(m), TriggerAlias(m));
  }

  /** The checker: its branches, then the closing `else Nothing`
      (or `Nothing`) written on the pending indentation. */
  method EmitChecker(m: string, active: seq<ActiveAwareness>) returns (code: string)
    ensures code == Unlines(AwarenessHead(m, ActiveIds(active)) + Concat(Branches(active)) + EndLines(|active|))
  {
    code := EmitBranches(AwarenessHead(m, ActiveIds(active)), active);
    if |active| > 0 {
      code := code + "else" + "\n" + Unlines(["        Nothing", ""]);
    } else {
      code := code + "Nothing" + "\n" + Unlines([""]);
    }
    PendingStep(AwarenessHead(m, ActiveIds(active)) + Concat(Branches(active)), "    ",
                EndWord(|active|), EndRest(|active|));
  }

  /** Each branch is written after the indentation the previous piece left
      pending. */
  method EmitBranches(head: seq<string>, active: seq<ActiveAwareness>) returns (code: string)
    ensures code == Unlines(head + Concat(Branches(active))) + "    "
  {
    var branches := Branches(active);
    code := Unlines(head) + "    ";
    BlocksEnds(head, branches);
    var i := 0;
    while i < |active|
      invariant 0 <= i <= |active|
      invariant code == Unlines(head + Concat(branches[..i])) + "    "
    {
      code := EmitBranch(code, head + Concat(branches[..i]), i, active[i]);
      PrefixSnoc(head, branches, i);
      i := i + 1;
    }
  }

  /** Appends one block after another, as the generator's `forEach` does. */
  method AppendBlocks(code: string, prefix: seq<string>, blocks: seq<seq<string>>) returns (r: string)
    requires code == Unlines(prefix)
    ensures r == Unlines(prefix + Concat(blocks))
  {
    r := code;
    BlocksEnds(prefix, blocks);
    var j := 0;
    while j < |blocks|
      invariant 0 <= j <= |blocks|
      invariant r == Unlines(prefix + Concat(blocks[..j]))
    {
      r := r + Unlines(blocks[j]);
      UnlinesBlockStep(prefix, blocks, j);
      j := j + 1;
    }
  }

  /** One branch written after the pending indentation: the lines gain the
      branch and the indentation is pending again. */
  method EmitBranch(code: string, ls: seq<string>, k: nat, a: ActiveAwareness) returns (next: string)
    requires code == Unlines(ls) + "    "
    ensures next == Unlines(ls + Branch(k, a)) + "    "
  {
    var open := BranchOpen(k, TypeName(a.awarenessId));
    var body := TriggerLines(a.awarenessId, TypeName(a.forcedBehavior), a.priority);
    next := code + open + "\n" + Unlines(body) + "    ";
    PendingStep(ls, "    ", open, body);
  }

  /** The first branch opens with `if`; every later one with `else` glued to
      the `if`, which yields the single word `elseif`. */
  lemma {:induction false} BranchOpening(k: nat, t: string)
    ensures k == 0 ==> "    " + BranchOpen(k, t) == "    if check" + t + " context then"
    ensures k > 0 ==> "    " + BranchOpen(k, t) == "        elseif check" + t + " context then"
  {
  }

  /** The `k`-th branch calls the check function of the `k`-th active
      awareness, and the `k`-th stub defines it; the branch names the forced
      behaviour's Elm type, which is a tactical variant when the forced
      behaviour is a tactical id. */
  lemma {:induction false} AwarenessBranchDefined(spec: Spec, k: nat)
    requires k < |spec.active|
    ensures var a := spec.active[k];
            var t := TypeName(a.awarenessId);
            && Branches(spec.active)[k][0] == "    " + BranchOpen(k, t)
            && CheckBlocks(spec.active)[k][2] == CheckDef(t)
            && Branches(spec.active)[k][3] == ForcedLine(TypeName(a.forcedBehavior))
            && (a.forcedBehavior in TacticalIds(spec) ==>
                  TypeName(a.forcedBehavior) in TacticalVariantNames(spec))
  {
    var a := spec.active[k];
    assert Branches(spec.active)[k] == Branch(k, a);
    BranchLinesFacts(k, TypeName(a.awarenessId), a.awarenessId, TypeName(a.forcedBehavior), a.priority);
    assert CheckBlocks(spec.active)[k] == CheckBlock(TypeName(a.awarenessId), a.description, a.triggerCondition);
    CheckBlockDefines(TypeName(a.awarenessId), a.description, a.triggerCondition);
    if a.forcedBehavior in TacticalIds(spec) {
      MapMember(TacticalIds(spec), TypeName, a.forcedBehavior);
    }
  }
}
