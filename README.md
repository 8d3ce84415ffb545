# Behaviour tools: markdown to record, record to Elm

This project models the two build tools of a behaviour engine for game units:

- `tools/md-to-json.js` reads a unit behaviour document written in markdown.
  It fills one record with the unit's metadata, its strategic, tactical and
  operational behaviours and its active and passive awareness types.
  The tool works by mutation: a module-level `output` object is filled by
  five extraction passes. Each pass scans its section with repeated `exec`
  calls of a global regular expression and pushes one record per entry.
- `tools/json-to-elm.js` turns such a record into the source text of an Elm
  module. The module holds the unit's state type, the three behaviour
  variant types, the initial state, the update function, and the handler and
  awareness functions. Each generator builds its text by appending to a
  string, and the identifier converters `toElmModuleName` and
  `toElmTypeName` turn the record's ids into Elm names.

The Dafny modules follow that split:

| module | file | models |
|---|---|---|
| `Text` | `text.dfy` | the JavaScript string operations both tools rely on (`trim`, `split`, `join`, `replace`, `match`/`exec`, case mapping) |
| `BehaviorSpec` | `behavior_spec.dfy` | the record: strategic, tactical and operational behaviours, awareness types, transitions, parameters |
| `ElmNames` | `elm_names.dfy` | `toElmModuleName`, `toElmTypeName` |
| `ElmTypes` | `elm_types.dfy` | module header, imports, state types, the three variant types, initial state, update function |
| `ElmHandlers` | `elm_handlers.dfy` | the strategic, tactical and operational handler generators |
| `ElmAwareness` | `elm_awareness.dfy` | `generateAwarenessFunctions` |
| `ElmModule` | `elm_module.dfy` | `generateElmModule` |
| `MdMatch` | `md_match.dfy` | each regular expression of the markdown reader, as a match at the start of a text |
| `MdFields` | `md_fields.dfy` | the per-field normalisers: item stripping, awareness lists, transitions, parameters |
| `MdRecords` | `md_records.dfy` | metadata, sections, and the reading of one entry into one record |
| `MdOutput` | `md_output.dfy` | the `output` object (a class) and the five extraction passes |

Each generator that appends to a string in a `forEach` loop is a method. Its
`ensures` ties the text to a function that gives the text line by line.
Lemmas then state where each line sits: one variant per behaviour in input
order, and every handler the dispatch calls is defined. Each regular
expression is a function that matches at the start of a text. `Leftmost`
searches the first position where the expression matches, as `match` and
`exec` do. `Scan` collects the successive matches of a global expression.
The `output` object is a class. Each pass is a method whose new state is a
function of the old state and the document.

The generated Elm text keeps the generator's quirks as written. A second or
later awareness branch opens with `elseif`, because `    else` is glued to
the `if` of the next branch. The tactical handlers end with a second
`Just TacticalIdle` branch outside any `case`.

## Model

| member | source | states |
|---|---|---|
| ElmNames.UpperFirst | tools/json-to-elm.js:437 | the first character is upper-cased, the rest is kept, the length is unchanged |
| ElmNames.Capitalize | tools/json-to-elm.js:450 | the first character is upper-cased and the rest lower-cased, the length is unchanged |
| ElmNames.CaseKeepsNonLetter | tools/json-to-elm.js:450 | case mapping neither introduces nor removes a non-letter |
| ElmNames.ModuleName | tools/json-to-elm.js:434-439 | the module name has no `_`, and is the id shortened by exactly its number of underscores |
| ElmNames.ConcatStartsUpper | tools/json-to-elm.js:436-438 | joining pieces that each start upper-case gives a text that starts upper-case |
| ElmNames.ModuleNameIdempotent | tools/json-to-elm.js:434-439 | converting a module name a second time leaves it unchanged |
| ElmNames.ModuleNameKeepsChar | tools/json-to-elm.js:434-439 | a non-letter absent from the id is absent from its module name |
| ElmNames.GroupAt | tools/json-to-elm.js:444 | a match of `\s*\(.*?\)\s*` spans at least the two parentheses and stays inside the text |
| ElmNames.StripGroups | tools/json-to-elm.js:444 | removing the parenthesised groups adds no character, and a name without `(` is unchanged |
| ElmNames.UnclosedGroup | tools/json-to-elm.js:444 | a `(` that starts no group has no `)` after it on its line |
| ElmNames.StripGroupsLeavesNoGroup | tools/json-to-elm.js:444 | after the groups are removed from a one-line name, no `(` is followed by a `)` |
| ElmNames.FromCoreAt | tools/json-to-elm.js:445 | a match of `\s+from\s+CORE` starts with whitespace and is at least ten characters long |
| ElmNames.RemoveFromCore | tools/json-to-elm.js:445 | only the leftmost `from CORE` annotation is cut, everything around it is kept, and a name without one is unchanged |
| ElmNames.TypeName | tools/json-to-elm.js:441-463 | snake case wins over spaces: the separators are removed and the length drops by their count; a name with neither only has its first character upper-cased |
| ElmNames.CamelJoin | tools/json-to-elm.js:448-459 | split, capitalise and join leaves no separator, and removes exactly the separators |
| ElmNames.PieceCharsIn | tools/json-to-elm.js:448-452 | every character of a piece of a split occurs in the joined text |
| ElmNames.LowerCapitalize | tools/json-to-elm.js:450 | capitalising a word changes letter case only |
| ElmNames.TypeNameKeepsLetters | tools/json-to-elm.js:441-463 | case aside, the type name is the cleaned name with its word separators deleted: no letter is lost, added or reordered |
| ElmNames.CleanKeepsChar | tools/json-to-elm.js:444-445 | the two clean-up replacements only remove characters |
| ElmNames.Clean | tools/json-to-elm.js:444-445 | no ensures: the two clean-up replaces and the trims; CleanKeepsChar and CleanKept state what they do |
| ElmNames.CleanKept | tools/json-to-elm.js:444-445 | a name with no whitespace at its ends, no `(` and no ` from CORE` is left as it is |
| ElmNames.CleanPlain | tools/json-to-elm.js:444-445 | a name with no whitespace and no `(` is left as it is |
| ElmNames.NoFromCoreInWords | tools/json-to-elm.js:445 | words joined by single spaces, none after the first being `from` in any case, hold no ` from CORE` match |
| ElmNames.TypeNameKeepsChar | tools/json-to-elm.js:441-463 | a non-letter absent from the name is absent from its type name |
| ElmNames.SameLettersKeepChar | tools/json-to-elm.js:441-463 | texts equal up to letter case hold the same non-letters |
| ElmNames.DeleteKeeps | tools/json-to-elm.js:448-459 | deleting a separator adds no character |
| ElmNames.UpperFirstKeepsLetters | tools/json-to-elm.js:462 | upper-casing the first character changes letter case only |
| ElmNames.CamelJoinKeepsLetters | tools/json-to-elm.js:448-459 | case aside, split-capitalise-join is deletion of the separator |
| ElmNames.PascalCaseUnchanged | tools/json-to-elm.js:461-462 | a name already in PascalCase, without whitespace, `(` or `_`, converts to itself |
| ElmNames.TypeNameOfClean | tools/json-to-elm.js:447-462 | on a cleaned name, a `_` splits it into pieces that are each capitalised and joined; so do spaces in a name without `_`; a name with neither only gets an upper-case first letter |
| ElmNames.TypeNameSnake | tools/json-to-elm.js:448-452 | a snake-case name of two or more clean pieces becomes the concatenation of the pieces, each with an upper-case first letter and a lower-case rest |
| ElmNames.TypeNameWords | tools/json-to-elm.js:454-459 | a name of two or more clean words separated by single spaces becomes the concatenation of the words, each with an upper-case first letter and a lower-case rest |
| ElmTypes.StrategicIds | tools/json-to-elm.js:142-154 | one id per strategic behaviour |
| ElmTypes.TacticalIds | tools/json-to-elm.js:156-168 | one id per tactical behaviour |
| ElmTypes.OperationalIds | tools/json-to-elm.js:170-182 | one id per operational behaviour |
| ElmTypes.StrategicBehaviorType | tools/json-to-elm.js:142-154 | no ensures: the strategic variant type text; StrategicTypeShape states its lines |
| ElmTypes.TacticalBehaviorType | tools/json-to-elm.js:156-168 | no ensures: the tactical variant type text; TacticalTypeShape states its lines |
| ElmTypes.OperationalBehaviorType | tools/json-to-elm.js:170-182 | no ensures: the operational variant type text; OperationalTypeShape states its lines |
| ElmTypes.OneLineTypeNames | tools/json-to-elm.js:441-463 | converting one-line names gives one-line names |
| ElmTypes.VariantLines | tools/json-to-elm.js:145-147 | one constructor line per name, the `k`-th declaring the `k`-th name |
| ElmTypes.VariantTypeLines | tools/json-to-elm.js:142-182 | the lines of a variant type are the doc comment, the type line, one line per constructor, then the fallback |
| ElmTypes.VariantTypeShape | tools/json-to-elm.js:142-182 | in the text of a variant type, line `3 + k` declares the `k`-th converted id and the last line declares the fallback |
| ElmTypes.StrategicTypeShape | tools/json-to-elm.js:142-154 | one constructor per strategic behaviour in input order, after the header, and then `WithoutHome` |
| ElmTypes.TacticalTypeShape | tools/json-to-elm.js:156-168 | one constructor per tactical behaviour in input order, and then `TacticalIdle` |
| ElmTypes.OperationalTypeShape | tools/json-to-elm.js:170-182 | one constructor per operational behaviour in input order, and then `OperationalIdle` |
| ElmTypes.InitialStateLines | tools/json-to-elm.js:189-202 | the initial state literal has fourteen lines, and its fifth sets the starting strategic behaviour |
| ElmTypes.InitialState | tools/json-to-elm.js:184-203 | no ensures: the initial state text; InitialStateShape and InitialStateText state its lines |
| ElmTypes.InitialStateShape | tools/json-to-elm.js:184-203 | the initial state starts in the first strategic behaviour, with no tactical and no operational behaviour running |
| ElmTypes.InitialStateText | tools/json-to-elm.js:189-202 | the text of the initial state reads back as fourteen lines: the starting strategic behaviour, then no tactical and no operational behaviour |
| ElmTypes.InitialStateLinesOneLine | tools/json-to-elm.js:189-202 | with one-line names, splitting the initial state at line breaks gives back its lines |
| ElmTypes.HeaderLines | tools/json-to-elm.js:95-108 | the header has twelve lines and opens with the module declaration |
| ElmHandlers.Arm | tools/json-to-elm.js:246-247 | a dispatch branch is three lines |
| ElmHandlers.ExecuteHead | tools/json-to-elm.js:238-242 | the opening of an `execute` function is eight lines |
| ElmHandlers.IdleArm | tools/json-to-elm.js:293-294 | the closing idle branch is three lines |
| ElmHandlers.EmitHandlers | tools/json-to-elm.js:244-270 | the two `forEach` loops emit the head, every dispatch branch in order, the closing branch, every handler in order, and the tail |
| ElmHandlers.ArmPlacement | tools/json-to-elm.js:244-248 | the `k`-th dispatch branch sits right after the head and the `k` branches before it |
| ElmHandlers.BlockPlacement | tools/json-to-elm.js:255-270 | the `k`-th handler sits right after the dispatch and the `k` handlers before it |
| ElmHandlers.HandlersFrame | tools/json-to-elm.js:244-272 | the closing branch follows the dispatch branches, and the text ends with the tail |
| ElmHandlers.Opening | tools/json-to-elm.js:257-258 | a handler opens with three lines |
| ElmHandlers.OpeningDefines | tools/json-to-elm.js:258 | the line after the signature defines the handler |
| ElmHandlers.OpeningBody | tools/json-to-elm.js:257-269 | line `i` of the body is line `3 + i` of the handler |
| ElmHandlers.StartCase | tools/json-to-elm.js:260-263 | the start of the `case` on the running behaviour is four lines |
| ElmHandlers.RunCase | tools/json-to-elm.js:265-269 | the end of that `case` is five lines |
| ElmHandlers.StrategicHead | tools/json-to-elm.js:238-242 | the strategic dispatch opening is five lines |
| ElmHandlers.StrategicArm | tools/json-to-elm.js:245-247 | one strategic dispatch branch is three lines |
| ElmHandlers.WithoutHomeArm | tools/json-to-elm.js:250-252 | the homeless branch is four lines |
| ElmHandlers.StrategicBlock | tools/json-to-elm.js:257-269 | a strategic handler is fourteen lines |
| ElmHandlers.StrategicBody | tools/json-to-elm.js:259-269 | its body is eleven lines |
| ElmHandlers.DelegateLines | tools/json-to-elm.js:259-269 | the body given the delegate list is eleven lines |
| ElmHandlers.DelegateLinesStart | tools/json-to-elm.js:264 | with no tactical behaviour running, the handler starts the given delegate |
| ElmHandlers.StrategicArms | tools/json-to-elm.js:244-248 | one dispatch branch per strategic behaviour |
| ElmHandlers.StrategicBlocks | tools/json-to-elm.js:255-270 | one handler per strategic behaviour |
| ElmHandlers.GenerateStrategicHandlers | tools/json-to-elm.js:235-273 | the text is the head, one branch per behaviour, the homeless branch, then one handler per behaviour, line by line |
| ElmHandlers.StrategicDispatchDefined | tools/json-to-elm.js:244-270 | the handler the `k`-th dispatch branch calls is the one the `k`-th handler defines |
| ElmHandlers.StrategicStartsFirstDelegate | tools/json-to-elm.js:264 | the `k`-th handler starts its first delegate, and that delegate is a tactical constructor when it is a tactical behaviour's id |
| ElmHandlers.TacticalHead | tools/json-to-elm.js:278-285 | the tactical dispatch opening is eight lines |
| ElmHandlers.TacticalArm | tools/json-to-elm.js:288-290 | one tactical dispatch branch is three lines |
| ElmHandlers.TacticalBlock | tools/json-to-elm.js:301-316 | a tactical handler is seventeen lines |
| ElmHandlers.TacticalBody | tools/json-to-elm.js:303-316 | its body is fourteen lines |
| ElmHandlers.StepLines | tools/json-to-elm.js:303-316 | the body given its comments and first step is fourteen lines |
| ElmHandlers.StepLinesStart | tools/json-to-elm.js:310 | with no operational step running, the handler starts the given step |
| ElmHandlers.TacticalTail | tools/json-to-elm.js:319-320 | the trailing idle branch is three lines |
| ElmHandlers.TacticalArms | tools/json-to-elm.js:287-291 | one dispatch branch per tactical behaviour |
| ElmHandlers.TacticalBlocks | tools/json-to-elm.js:297-317 | one handler per tactical behaviour |
| ElmHandlers.GenerateTacticalHandlers | tools/json-to-elm.js:275-323 | the text is the head, one branch per behaviour, the idle branch, one handler per behaviour and the trailing idle branch |
| ElmHandlers.TacticalIdleTwice | tools/json-to-elm.js:293-320 | the `Just TacticalIdle` branch is written twice, once in the dispatch and once after the handlers |
| ElmHandlers.TacticalDispatchDefined | tools/json-to-elm.js:287-317 | the handler the `k`-th dispatch branch calls is the one the `k`-th handler defines |
| ElmHandlers.TacticalStartsFirstStep | tools/json-to-elm.js:310 | the `k`-th handler starts its first step, or `OperationalIdle` for an empty sequence, and that is an operational constructor when the step is an operational behaviour's id |
| ElmHandlers.OperationalHead | tools/json-to-elm.js:328-335 | the operational dispatch opening is eight lines |
| ElmHandlers.OperationalArm | tools/json-to-elm.js:338-340 | one operational dispatch branch is three lines |
| ElmHandlers.OperationalBlock | tools/json-to-elm.js:351-356 | an operational handler is seven lines |
| ElmHandlers.OperationalBody | tools/json-to-elm.js:353-356 | its body is a four-line stub |
| ElmHandlers.StubLines | tools/json-to-elm.js:353-356 | the stub is four lines |
| ElmHandlers.StubLinesAction | tools/json-to-elm.js:353 | the stub's first line documents the action |
| ElmHandlers.OperationalArms | tools/json-to-elm.js:337-341 | one dispatch branch per operational behaviour |
| ElmHandlers.OperationalBlocks | tools/json-to-elm.js:347-357 | one handler per operational behaviour |
| ElmHandlers.GenerateOperationalHandlers | tools/json-to-elm.js:325-360 | the text is the head, one branch per behaviour, the idle branch, then one handler per behaviour |
| ElmHandlers.OperationalDispatchDefined | tools/json-to-elm.js:337-357 | the `k`-th dispatch branch calls the handler the `k`-th handler defines, and that handler documents the action, or `NoAction` when the action is empty |
| ElmAwareness.ActiveIds | tools/json-to-elm.js:369 | one id per active awareness |
| ElmAwareness.AwarenessHead | tools/json-to-elm.js:365-370 | the checker's opening is five lines |
| ElmAwareness.TriggerLines | tools/json-to-elm.js:376-380 | a trigger record is five lines |
| ElmAwareness.Branch | tools/json-to-elm.js:374-381 | a checker branch is six lines |
| ElmAwareness.BranchLines | tools/json-to-elm.js:374-381 | a branch given its texts is six lines |
| ElmAwareness.BranchLinesFacts | tools/json-to-elm.js:375-378 | a branch opens with the check of its awareness and returns its forced tactical behaviour |
| ElmAwareness.Branches | tools/json-to-elm.js:373-382 | one six-line branch per active awareness |
| ElmAwareness.EndRest | tools/json-to-elm.js:383-387 | after the branches come `else Nothing`, or just `Nothing` when there are none |
| ElmAwareness.EndLines | tools/json-to-elm.js:383-387 | the end of the checker is two lines without branches and three with them |
| ElmAwareness.CheckBlock | tools/json-to-elm.js:392-397 | a check function is seven lines |
| ElmAwareness.CheckBlockDefines | tools/json-to-elm.js:393 | its third line defines the check function |
| ElmAwareness.CheckBlocks | tools/json-to-elm.js:390-398 | one seven-line check function per active awareness |
| ElmAwareness.InterruptLines | tools/json-to-elm.js:400-419 | the interrupt handler is twenty-three lines |
| ElmAwareness.TriggerAlias | tools/json-to-elm.js:421-425 | the trigger type alias is six lines |
| ElmAwareness.GenerateAwarenessFunctions | tools/json-to-elm.js:362-428 | the text is the checker, one check function per active awareness, the interrupt handler and the trigger alias, line by line |
| ElmAwareness.EmitChecker | tools/json-to-elm.js:365-387 | the checker is its opening, one branch per active awareness and its end |
| ElmAwareness.EmitBranches | tools/json-to-elm.js:372-382 | each branch completes the indentation the previous piece left pending |
| ElmAwareness.AppendBlocks | tools/json-to-elm.js:390-398 | the `forEach` appends the blocks one after another |
| ElmAwareness.EmitBranch | tools/json-to-elm.js:374-381 | one branch gains its lines and leaves the indentation pending |
| ElmAwareness.BranchOpening | tools/json-to-elm.js:374-375 | the first branch opens with `if`; every later one opens with `elseif`, the `else` glued to the `if` |
| ElmAwareness.AwarenessBranchDefined | tools/json-to-elm.js:373-398 | the `k`-th branch calls the check function the `k`-th check block defines, and forces a tactical constructor when its forced behaviour is a tactical behaviour's id |
| ElmModule.Declarations | tools/json-to-elm.js:45-73 | eight declaration sections, the first of them the header |
| ElmModule.BehaviourCode | tools/json-to-elm.js:75-89 | four code sections |
| ElmModule.AddSection | tools/json-to-elm.js:45-89 | appending a section after the pending separator extends the joined text by one section |
| ElmModule.GenerateElmModule | tools/json-to-elm.js:39-93 | the module is the twelve sections in order, separated by blank lines |
| ElmModule.EmitBehaviourCode | tools/json-to-elm.js:75-89 | the four code sections are those the handler and awareness generators write |
| ElmModule.Assemble | tools/json-to-elm.js:44-92 | twelve sections joined with a blank line between consecutive ones |
| ElmModule.ModuleOpens | tools/json-to-elm.js:96 | the generated module opens with its `module … exposing` line |
| ElmModule.FirstLineFirst | tools/json-to-elm.js:45-46 | a text whose first part is joined from lines starts with the first of those lines |
| Text.Trim | tools/md-to-json.js:96 | `trim` cuts exactly the whitespace at both ends and returns the slice in between |
| Text.TrimEnds | tools/md-to-json.js:96 | a text with no whitespace at either end is its own trim |
| Text.RemoveFirstCuts | tools/md-to-json.js:56 | a literal `replace` cuts exactly the first occurrence, the one Find gives, and leaves a text without an occurrence unchanged |
| Text.Find | tools/md-to-json.js:56 | the position found is an occurrence with none before it, and none is found exactly when there is no occurrence |
| Text.RemoveFirstAt | tools/md-to-json.js:56 | when the first occurrence is at `i`, the result is the text with the characters of that occurrence cut out |
| Text.RemoveAbsent | tools/md-to-json.js:56 | a text without an occurrence is unchanged |
| Text.Split | tools/json-to-elm.js:436 | `split` gives one more piece than there are separators, none holding a separator |
| Text.SplitJoin | tools/json-to-elm.js:436-438 | splitting a join of separator-free pieces gives back the pieces |
| Text.JoinSplit | tools/json-to-elm.js:436-438 | joining the pieces of a split gives back the text |
| Text.ConcatSplit | tools/json-to-elm.js:436-438 | joining the pieces of a split with nothing between them deletes the separator |
| Text.JoinKeeps | tools/json-to-elm.js:436-438 | a property every character of the pieces and of the separator has, every character of the join has |
| Text.Leftmost | tools/md-to-json.js:54 | `match` finds the first position where the expression matches, and there is none before it |
| Text.CutLeftmost | tools/json-to-elm.js:445 | a non-global `replace` cuts the leftmost match and keeps the rest |
| Text.Scan | tools/md-to-json.js:95 | the global `exec` loop collects at most one match per character |
| Text.ScanAll | tools/md-to-json.js:95 | every value the `exec` loop collects is one the expression returns |
| MdMatch.DigitRun | tools/md-to-json.js:123 | `\d+` takes the whole run of digits |
| MdMatch.PlainRun | tools/md-to-json.js:201 | `[^(\n]+` stops at the first `(` or line feed |
| MdMatch.Seek | tools/md-to-json.js:92 | a lazy capture before a lookahead stops at the first position where the lookahead holds |
| MdMatch.Until | tools/md-to-json.js:109 | a lazy capture before a lookahead with a `$` alternative stops at the first position where the lookahead holds, or at the end |
| MdMatch.LineValue | tools/md-to-json.js:115 | `\s*(.+)$` captures the non-empty rest of the line after the blanks |
| MdMatch.BeforeAnnotation | tools/md-to-json.js:193 | a lazy value captures the shortest non-empty prefix before an annotation or the line end |
| MdMatch.LabelLength | tools/md-to-json.js:115 | a label match starts with `**` |
| MdMatch.BulletLabel | tools/md-to-json.js:115 | a bullet label starts with `-` |
| MdMatch.Field | tools/md-to-json.js:115-118 | the field is absent exactly when no position carries its label, and otherwise is read from the first line that does |
| MdMatch.FirstFieldWins | tools/md-to-json.js:231-234 | the value of a field is the one on the first line that carries its label |
| MdMatch.AnnotatedField | tools/md-to-json.js:193-196 | the annotated field is absent exactly when no position carries its label |
| MdMatch.Meta | tools/md-to-json.js:60-63 | a metadata field is absent exactly when no position carries its label |
| MdMatch.DescriptionField | tools/md-to-json.js:109-112 | the description is absent exactly when no position starts one |
| MdMatch.HeaderAt | tools/md-to-json.js:121 | a list label line is at least five characters long |
| MdMatch.MarkerLength | tools/md-to-json.js:121 | a list marker is at least one character long |
| MdMatch.ItemLine | tools/md-to-json.js:121 | an item line is at least one character long |
| MdMatch.BlockLength | tools/md-to-json.js:121 | the run of item lines stays inside the text |
| MdMatch.ListBlock | tools/md-to-json.js:121-122 | the list is absent exactly when no label line is followed by an item |
| MdMatch.AnnotatedItemAt | tools/md-to-json.js:123 | a numbered item match is a non-empty prefix of the text |
| MdMatch.PlainItemAt | tools/md-to-json.js:201 | a plain item match is a non-empty prefix holding no `(` and no line feed |
| MdMatch.MarkerPlain | tools/md-to-json.js:201 | a marker holds no `(` and no line feed |
| MdMatch.AfterMarker | tools/md-to-json.js:125 | the text after the marker is a suffix of the item |
| MdMatch.NumberMarker | tools/md-to-json.js:125 | a run of digits and a `.` is a number marker one longer than the run |
| MdMatch.AfterArrow | tools/md-to-json.js:141 | the target follows the arrow and is a non-empty suffix |
| MdMatch.ConditionTarget | tools/md-to-json.js:141-147 | the condition is the shortest non-empty prefix of the line that a `\s+→\s+` arrow follows, and the target is the text after that arrow up to ` (` or the end of the line; there is no match exactly when no arrow follows any non-empty prefix |
| MdMatch.TargetEnd | tools/md-to-json.js:141 | the match of a target ends no earlier than the captured target and no later than the line |
| MdMatch.TransitionLead | tools/md-to-json.js:141 | the lead is a `-`, then blanks, then the word (`If` for strategic lines, nothing for the tactical lines at line 239) |
| MdMatch.TransitionAt | tools/md-to-json.js:141 | a match needs the lead with its word, and captures condition and target from the rest of that line as ConditionTarget does |
| MdMatch.ParamAt | tools/md-to-json.js:308-311 | a parameter match is a non-empty prefix of the text |
| MdMatch.HeadingLength | tools/md-to-json.js:86 | a section heading is at least three characters long |
| MdMatch.Section | tools/md-to-json.js:86-87 | the section is absent exactly when no position starts it |
| MdMatch.EntryAt | tools/md-to-json.js:92-97 | an entry match is a non-empty prefix of the text |
| MdMatch.BehaviorEntryAt | tools/md-to-json.js:92 | a `###` entry match is a non-empty prefix of the text |
| MdMatch.AwarenessEntryAt | tools/md-to-json.js:363 | a `####` entry match is a non-empty prefix of the text |
| MdMatch.Subsection | tools/md-to-json.js:360 | the awareness subsection (active here, passive at line 417) is absent exactly when no position starts it |
| MdMatch.LabelNeedsStar | tools/md-to-json.js:115 | a labelled line holds a `*` |
| MdMatch.Unlabelled | tools/md-to-json.js:108-154 | a body without `*` has no field, no annotated field and no list |
| MdMatch.Undescribed | tools/md-to-json.js:109 | a body without `*` has no description |
| MdFields.TrimmedOr | tools/md-to-json.js:61-63 | an absent field keeps the default, a present one gives its trimmed value |
| MdFields.StripNumber | tools/md-to-json.js:125 | an item with a `N.` marker becomes the text after the marker without its leading whitespace; an item without one is unchanged |
| MdFields.StripDash | tools/md-to-json.js:343 | an item with a `-` marker becomes the text after the marker without its leading whitespace; an item without one is unchanged |
| MdFields.StripNumberCuts | tools/md-to-json.js:125 | digits, a `.`, whitespace and then a text not starting with whitespace strip to exactly that text |
| MdFields.StripDashCuts | tools/md-to-json.js:343 | a `-`, whitespace and then a text not starting with whitespace strip to exactly that text |
| MdFields.ParenTail | tools/md-to-json.js:204 | `\s*\(.*$` matches only up to the end of a text that holds a `(` |
| MdFields.CutAnnotation | tools/md-to-json.js:204 | cutting the annotation leaves a prefix, and a text without `(` is unchanged |
| MdFields.RemoveTags | tools/md-to-json.js:134 | removing the tags only removes characters, and a text without `(` is unchanged |
| MdFields.RemoveTagsCuts | tools/md-to-json.js:134 | `x(active)y` and `x(passive)y` become `xy` when neither `x` nor `y` holds a `(` |
| MdFields.RemoveTagsPlain | tools/md-to-json.js:134 | text before the first `(` is kept as it is |
| MdFields.AwarenessList | tools/md-to-json.js:130-136 | one entry per comma-separated piece of the value, the `i`-th being the `i`-th piece with its tags removed and trimmed; no entry holds a comma or has whitespace at either end |
| MdFields.AwarenessSingle | tools/md-to-json.js:133-135 | a value without commas gives one entry: the value with its tags removed, trimmed |
| MdFields.AwarenessTagged | tools/md-to-json.js:133-135 | a value `x(active)y` or `x(passive)y` without commas or other `(` gives the single entry `trim(x + y)` |
| MdFields.StepNames | tools/md-to-json.js:199-207 | one name per matched step, each the step after its number marker, trimmed, and holding no `(` or line feed |
| MdFields.ResultNames | tools/md-to-json.js:338-346 | one name per matched result line, each the line after its dash, trimmed, and holding no `(` or line feed |
| MdFields.DelegateNames | tools/md-to-json.js:121-126 | one name per matched delegate item, the `i`-th being the `i`-th item after its number marker, trimmed |
| MdFields.PlainNameOf | tools/md-to-json.js:202-205 | on a matched item (marker, blanks, text without `(` or line feed) the name is the text after the marker, trimmed, so the `\s*\(.*$` replace changes nothing |
| MdFields.PlainItemsHold | tools/md-to-json.js:201 | no matched item holds a `(` or a line feed (steps here, results at line 340 alike) |
| MdFields.TransitionMatch | tools/md-to-json.js:141 | a transition line match is a non-empty prefix of the text |
| MdFields.ParseLines | tools/md-to-json.js:143-151 | the `i`-th result is the parse of the `i`-th matched line |
| MdFields.Present | tools/md-to-json.js:152 | a transition is kept exactly when some line parsed to it, as `filter(t => t !== null)` does |
| MdFields.PresentAppend | tools/md-to-json.js:152 | filtering a concatenation gives the filtered parts in order |
| MdFields.PresentStored | tools/md-to-json.js:152 | when every parsed pair is stored trimmed, so is every kept pair |
| MdFields.ParseTransition | tools/md-to-json.js:144-150 | no pair exactly when the expression matches nowhere in the line; a pair is stored trimmed, with no arrow inside its condition and no ` (` inside its target |
| MdFields.ParseTransitionFirst | tools/md-to-json.js:144-150 | the pair comes from the leftmost match, with condition and target trimmed |
| MdFields.WithoutIf | tools/md-to-json.js:141 | a line where no dash is followed by blanks and `If` yields no strategic transition |
| MdFields.TransitionList | tools/md-to-json.js:139-153 | at most one transition per matched line; a transition is listed exactly when some matched line parses to it; each is trimmed, its condition holds no arrow and its target no ` (` |
| MdFields.ParamMatch | tools/md-to-json.js:308 | a parameter line match is a non-empty prefix of the text |
| MdFields.SetParam | tools/md-to-json.js:312-314 | setting a key keeps keys distinct, gives the key its new value, and changes no other key |
| MdFields.Parameters | tools/md-to-json.js:306-317 | the parameter object has distinct keys |
| MdFields.CollectParameters | tools/md-to-json.js:309-316 | the `forEach` over the parameter lines builds that object |
| MdFields.LaterKeyWins | tools/md-to-json.js:312-314 | a key holds the value of the last line that sets it |
| MdFields.UnsetKeyAbsent | tools/md-to-json.js:309-316 | a key no line sets is not in the object |
| MdRecords.Title | tools/md-to-json.js:54 | the title is absent exactly when no line is a `# ` heading |
| MdRecords.UnitTypeOf | tools/md-to-json.js:54-69 | no ensures: the unit type from the `Unit Type` field, else the title, else the old value; UnitTypeFromTitle and ReadMetadata state it |
| MdRecords.UnitTypeFromTitle | tools/md-to-json.js:54-57 | without a `Unit Type` field, the unit type is the title with its first ` Behavior` cut out, then trimmed |
| MdRecords.AwarenessOf | tools/md-to-json.js:130-136 | no awareness field gives no entries; every entry is trimmed and holds no comma |
| MdRecords.OneOrNone | tools/md-to-json.js:332-336 | an optional field becomes a list of at most one element |
| MdRecords.ReadStrategic | tools/md-to-json.js:96-156 | the id is the trimmed heading; the delegates are the matched numbered items after their markers, trimmed, in order; every awareness entry is trimmed; every transition is a stored pair |
| MdRecords.ReadTactical | tools/md-to-json.js:171-254 | the id is the trimmed heading; the sequence holds one name per matched step, after its marker, trimmed; every awareness entry is trimmed; every transition is a stored pair |
| MdRecords.ReadOperational | tools/md-to-json.js:269-348 | the id is the trimmed heading; the result holds one name per matched result line, after its dash, trimmed |
| MdRecords.ReadActive | tools/md-to-json.js:367-412 | the record's id is the trimmed heading |
| MdRecords.ReadPassive | tools/md-to-json.js:424-452 | the record's id is the trimmed heading |
| MdRecords.InterruptibleExactly | tools/md-to-json.js:231-234 | a tactical behaviour is not interruptible exactly when the first `Interrupts` line mentions `None` |
| MdRecords.StrategicDefaults | tools/md-to-json.js:99-106 | an entry without fields gets an empty description, `Normal` priority and no delegates, awareness or transitions |
| MdRecords.TacticalDefaults | tools/md-to-json.js:174-184 | an entry without fields gets `Normal` priority, no sequence or awareness, empty conditions, is interruptible and has no transitions |
| MdRecords.OperationalDefaults | tools/md-to-json.js:273-283 | an entry without fields gets no action, parameters, duration, side effects or result, and empty conditions |
| MdRecords.ActiveDefaults | tools/md-to-json.js:370-378 | an entry without fields gets no scan radius, empty trigger and forced behaviour, `Critical` priority and no stores |
| MdRecords.PassiveDefaults | tools/md-to-json.js:427-433 | an entry without fields gets an empty description and no stores or influences |
| MdRecords.ReadAll | tools/md-to-json.js:95-156 | one record per entry, the `i`-th read from the `i`-th entry |
| MdOutput.Output.constructor | tools/md-to-json.js:36-49 | the record starts with empty strings and lists and no parent |
| MdOutput.Output.ExtractMetadata | tools/md-to-json.js:52-82 | each metadata field overwrites the record only when present; the `Unit Type` field overrides the title |
| MdOutput.Output.ExtractStrategicBehaviors | tools/md-to-json.js:85-158 | the records of the section's entries are appended in order; nothing else changes |
| MdOutput.Output.ExtractTacticalBehaviors | tools/md-to-json.js:161-256 | the records of the section's entries are appended in order; nothing else changes |
| MdOutput.Output.ExtractOperationalBehaviors | tools/md-to-json.js:259-350 | the records of the section's entries are appended in order; nothing else changes |
| MdOutput.Output.ExtractAwarenessTypes | tools/md-to-json.js:353-455 | the active entries' records, then the passive entries' records, are appended; nothing else changes |
| MdOutput.ReadMetadata | tools/md-to-json.js:52-82 | the steps taken in the source's order give the record MetadataPass describes, and only the four metadata fields change: each is the trimmed match when present and the old value otherwise, and the `Unit Type` field overrides the title |
| MdOutput.StrategicRecords | tools/md-to-json.js:86-157 | no records when the section is missing, otherwise one per entry in order |
| MdOutput.TacticalRecords | tools/md-to-json.js:162-255 | no records when the section is missing, otherwise one per entry in order |
| MdOutput.OperationalRecords | tools/md-to-json.js:260-349 | no records when the section is missing, otherwise one per entry in order |
| MdOutput.AwarenessRecords | tools/md-to-json.js:354-454 | active and passive records, each only when its subsection is present |
| MdOutput.CollectEntries | tools/md-to-json.js:92-95 | the `exec` loop yields one record per match, in order, each search starting where the last match ended |
| MdOutput.CollectOperational | tools/md-to-json.js:265-348 | the operational loop yields one record per entry, its parameters collected line by line |
| MdOutput.WithParameters | tools/md-to-json.js:306-317 | the record built with the parameters the loop collected is the record the entry reads as |
| MdOutput.NextEntry | tools/md-to-json.js:95 | one `exec` step: the record of the match found, then those of the rest of the text |
| MdOutput.LastEntry | tools/md-to-json.js:95 | when `exec` returns `null`, no record is left |
| MdOutput.Compile | tools/md-to-json.js:458-463 | a fresh record and the five passes in order give the record of the document |
| MdOutput.MetadataPass | tools/md-to-json.js:52-82 | no ensures: the record after extractMetadata; ExtractMetadata and ReadMetadata state it |
| MdOutput.StrategicPass | tools/md-to-json.js:85-158 | no ensures: the record after extractStrategicBehaviors; ExtractStrategicBehaviors states it |
| MdOutput.TacticalPass | tools/md-to-json.js:161-256 | no ensures: the record after extractTacticalBehaviors; ExtractTacticalBehaviors states it |
| MdOutput.OperationalPass | tools/md-to-json.js:259-350 | no ensures: the record after extractOperationalBehaviors; ExtractOperationalBehaviors states it |
| MdOutput.AwarenessPass | tools/md-to-json.js:353-455 | no ensures: the record after extractAwarenessTypes; ExtractAwarenessTypes states it |
| MdOutput.CompileSpec | tools/md-to-json.js:458-463 | no ensures: the five passes in order from the initial record; Compile states it |

## Left out

- Reading files, command-line arguments, writing the JSON and Elm files, and console messages are not modelled.
- The JSON schema validation of the record is not part of this model.
- The record's `stateData` member is always the empty object and is not kept.
- `parseFloat` of the duration and `parseInt` of the scan radius are not modelled. The fields hold the trimmed text. Numeric conversion needs a model of JavaScript number parsing.
- Case mapping covers ASCII letters only. JavaScript's Unicode case tables are outside the model.
- A `\s` in a single-line field pattern may cross a line break in JavaScript. The model reads it as same-line whitespace, except after `## Description`. A whitespace run is taken whole, with no backtracking into it.
- In the list block patterns, the leading `\s+` of an item line could reach over blank lines. The model starts each item on the next line.
- MdFields.Parameters: keeps keys in first-set order. JavaScript puts integer-like keys first, and the model does not capture that.
- MdFields.RemoveTags: makes one left-to-right pass, as `replace` does. A tag that appears only after another is removed, such as `((active)active)`, remains.
- Awareness subsections: the lookahead `##` also matches at the start of the next `####` heading. So at most one active and one passive entry are read, and the model keeps that behaviour.
- The last `###` entry of a section is read only when a `###`, `##` or `---` follows it inside the section. The model keeps that behaviour.
- The `\s*\(.*$` replace of step and result items never changes them, because the item pattern stops before `(`. The model applies it, and PlainNameOf proves that it changes nothing on a matched item.
- Each extraction pass collects its section's records and appends them once, where the source pushes them one by one. The final state is the same.
- MdRecords.ReadStrategic: its ensures state the id, the delegates, and the form of the awareness entries and the transitions. The single-value fields (description, priority) are stated by the contracts of Field and TrimmedOr and by StrategicDefaults.
- MdRecords.ReadTactical: its ensures state the id, the step sequence, and the form of the awareness entries and the transitions. The single-value fields are stated by the contracts of Field, AnnotatedField and TrimmedOr, by InterruptibleExactly and by TacticalDefaults.
- MdRecords.ReadOperational: its ensures state the id and the result list. The parameters are stated by LaterKeyWins and UnsetKeyAbsent, and the other fields by the contracts of Field and TrimmedOr and by OperationalDefaults.
- MdRecords.ReadActive: its ensures state only the id. The other fields are stated by the contracts of Field and TrimmedOr and by ActiveDefaults.
- MdRecords.ReadPassive: its ensures state only the id. The other fields are stated by the contracts of Field and TrimmedOr and by PassiveDefaults.
- ElmModule.GenerateElmModule, ElmTypes.InitialStateShape: require at least one strategic behaviour. ElmHandlers.GenerateStrategicHandlers requires a delegate for each strategic behaviour. The source reads `[0]` of those lists, and fails when one is empty.
- The Elm text's lines are stated where the names pasted into them hold no line break (the `OneLineNames` requirement of the shape lemmas).
