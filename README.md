# WhitePrint AI floor-plan pipeline, modelled in Dafny

WhitePrint AI turns a natural-language request ("House 500m² with 3
bedrooms…") into a floor-plan picture. The pipeline is a graph of eight steps
sharing one state dictionary. Two of the steps end in a validation gate
that asks a language model for a verdict and routes on the words in its answer:

- Gate A decides whether the request is reasonable.
- Gate B decides whether the room allocation is well formed and sensible.

Between the two gates the model is asked for a structured allocation of
rooms. After Gate B it is asked for two more structured answers, a layout
and a list of doors. The shared door plan is then deduplicated in place,
so that only one door is kept for each unordered pair of rooms, before it
is drawn and saved.

This project models that core:

- the state and the steps that update it (`Pipeline.PipelineState`);
- the gates, with Python's `strip`, `upper` and substring test written out
  (`Gates`, `Text`);
- the door deduplication loop (`Doors`);
- the graph wiring, and a run of the graph over it (`Graph`, `Pipeline.Invoke`);
- the terminal prompt loop (`UserInput`);
- the room-colour table and its lookup (`Colors`).

The language model is not modelled. Its answers are inputs. For the two
free-text gates a `Gates.Reply` is either the answer or the exception the
call raised. For the three structured steps the fields of
`Pipeline.Gateway` hold the answers already built; an exception raised by a
structured call is not represented (see "## Left out").

Files: `text.dfy`, `models.dfy`, `dedup.dfy`, `colors.dfy`, `gates.dfy`,
`graph.dfy`, `pipeline.dfy`, `userinput.dfy`.

Two points of the code that a reader might not expect:

- Phase 1 of Gate B checks values only for rooms stored as dictionaries: a
  non-empty `name` and a non-zero `area`. For `Room` records it checks only
  that the attributes exist, which they always do. The allocation step
  stores `Room` records, so a room with area 0 or an empty name passes
  phase 1 (`Gates.RecordRoomsPassPhaseOne`).
- `FloorPlanState` annotates `rooms` as a list of dictionaries. The code
  stores the model's `Room` records there, and phase 1 handles both shapes
  (`Models.RoomEntry`).

## Model

| member | source | states |
|---|---|---|
| Text.IsSpace | main.py:63 | the characters `str.strip()` removes: exactly the code points for which Python's `isspace` holds |
| Text.TrimStart | main.py:63 | `lstrip` never lengthens the string, and what is left does not start with white space |
| Text.TrimEnd | main.py:63 | `rstrip` never lengthens the string, and what is left does not end with white space |
| Text.Strip | main.py:63 | `str.strip()` returns a string no longer than its input that neither starts nor ends with white space |
| Text.TrimStartIsSuffix | main.py:63 | the left-trimmed string is a suffix of the input, and only white space was dropped |
| Text.TrimEndIsPrefix | main.py:63 | the right-trimmed string is a prefix of the input, and only white space was dropped |
| Text.StripIsSlice | main.py:63 | the stripped string is the slice of the input after its leading white space, and only white space was cut from either end |
| Text.StripIdempotent | main.py:385 | stripping an already stripped line changes nothing |
| Text.UpperChar | main.py:63 | one character's `upper()`: an ASCII lower-case letter becomes its upper-case letter, any other character is kept |
| Text.Upper | main.py:63 | `str.upper()` keeps the length, turns each ASCII lower-case letter into its upper-case letter and keeps every other character |
| Text.Contains | main.py:65 | the `in` test on strings: a word found is no longer than the text, and the empty word is found in every text |
| Text.UpperKeepsContains | main.py:63-65 | a word found in the trimmed answer is still found, upper-cased, after upper-casing |
| Text.ContainsAt | main.py:65 | the `in` test on strings holds exactly when the word occurs at some position |
| Text.ContainsTransitive | main.py:65-68 | a word inside a word found in the answer is found in the answer |
| Text.StrLess | main.py:283 | string `<` by code points: nothing comes before the empty string, and a proper prefix comes before the longer string |
| Text.StrLessIrreflexive | main.py:283 | string `<`, which `sorted` uses, never puts a name before itself |
| Text.StrLessAsymmetric | main.py:283 | string `<` never holds both ways |
| Text.StrLessTotal | main.py:283 | two different names are always ordered one way or the other |
| Models.AsEntries | main.py:179 | the allocation's rooms go into the state one for one, in order, as `Room` records |
| Models.DoorPlan.constructor | models.py:45-46 | a door plan holds exactly the doors it was built from |
| Doors.Key | main.py:283 | the sorted-tuple key holds the door's two room names, the smaller first |
| Doors.KeyIsUnorderedPair | main.py:283 | two doors have the same key exactly when they join the same two rooms, in either direction |
| Doors.Dedup | main.py:279-286 | the filtered list is empty exactly when the door list is empty |
| Doors.DedupSelectsFirstOccurrences | main.py:279-286 | the filtered list is the input's first door for each key, at strictly increasing positions, and no first door is missed |
| Doors.DedupKeepsEveryPair | main.py:279-286 | filtering loses no pair of rooms and invents none: the output's keys are the input's keys |
| Doors.DedupHasNoDuplicateKeys | main.py:279-286 | after filtering no two doors join the same two rooms |
| Doors.DedupOfDistinct | main.py:279-286 | a door list without duplicate pairs passes through unchanged |
| Doors.DedupIdempotent | main.py:279-289 | deduplicating the deduplicated list changes nothing |
| Doors.DedupShrinks | main.py:288 | filtering never adds doors, so the removed count is never negative |
| Doors.DedupRemovesIffDuplicates | main.py:288-292 | doors are removed, and the warning printed, exactly when two input doors join the same two rooms |
| Doors.ReversedDuplicateIsDropped | main.py:279-289 | for the doors A-B, B-A, A-C, only A-B and A-C are kept |
| Doors.DedupDoors | main.py:279-288 | the `seen`/`filtered` loop produces the deduplicated list, and `removed_count` is the number of doors dropped, positive exactly when duplicates existed |
| Colors.IsDigit | utils.py:25 | `str.isdigit` on a character; no digit is white space |
| Colors.RemoveDigits | utils.py:25 | removing digits leaves no digit and never lengthens the name |
| Colors.RemoveDigitsAppend | utils.py:25 | digit removal works piece by piece on a concatenation |
| Colors.RemoveDigitsOfDigitFree | utils.py:25 | a name without digits is unchanged |
| Colors.BaseName | utils.py:25 | the base name has no digit and no white space at either end |
| Colors.StripKeepsDigitFree | utils.py:25 | trimming after removing digits cannot bring a digit back |
| Colors.BaseNameIdempotent | utils.py:25 | the base name of a base name is itself |
| Colors.GetRoomColor | utils.py:20-26 | the colour is the table's entry for the base name, or white when the table has none |
| Colors.TableRoomTypes | utils.py:7-18 | `ROOM_COLORS` knows exactly the ten room types, and none of them is coloured white |
| Colors.WhiteMeansUnknownType | utils.py:26 | a room gets the white fallback exactly when the table does not know its base type |
| Colors.ColorIsFromTable | utils.py:7-26 | every colour returned is one of the table's ten colours or the white fallback |
| Colors.ColorOfBaseName | utils.py:20-26 | a room named by its base type alone gets the same colour as any numbered one |
| Colors.ColorIgnoresDigits | utils.py:25-26 | inserting a digit anywhere in a name leaves its colour unchanged |
| Colors.NumberedBathroomDigitsRemoved | utils.py:25 | removing the digit from "Bathroom " plus a digit leaves "Bathroom " |
| Colors.PaddedBathroomStripped | utils.py:25 | trimming "Bathroom " leaves "Bathroom" |
| Colors.NumberedBathroomBase | utils.py:22-25 | "Bathroom " followed by a digit has the base name "Bathroom" |
| Colors.BathroomColor | utils.py:11 | a name whose base is "Bathroom" gets `#FFB6C1` |
| Colors.NumberedBathroomsShareColor | utils.py:21-26 | "Bathroom 1", "Bathroom 2" and the like all get the bathroom colour, as the doc comment says |
| Gates.RouteOf | main.py:65-77 | only an accepted or unclear verdict returns "CONTINUE"; a rejection, a raised call or a structural fault returns "END" |
| Gates.Truthy | main.py:90-105 | Python truthiness of a number read with `get`: present and non-zero |
| Gates.RoomEntryOk | main.py:104-111 | the per-room test: a dictionary room needs a non-empty name and a non-zero area; a `Room` record always passes, whatever its values |
| Gates.Normalize | main.py:63 | `strip().upper()` gives an answer as long as the stripped reply, with no white space at either end and no lower-case ASCII letter |
| Gates.Classify | main.py:63-77 | a raised call fails; otherwise the answer is rejected exactly when it contains the rejecting word, accepted exactly when it contains the accepting word but not the rejecting one, and unclear when it contains neither |
| Gates.RejectingWordsContainAcceptingWords | main.py:65-68 | "UNREASONABLE" contains "REASONABLE", and "INVALID" contains "VALID" |
| Gates.RejectionAlsoMatchesAcceptance | main.py:137-140 | any answer with the rejecting word also has the accepting word, so the rejecting word must be tested first |
| Gates.ShouldContinueAfterVerification | main.py:57-77 | Gate A ends the run exactly when the model call raised or the normalized answer contains "UNREASONABLE"; any other answer, with "REASONABLE" or not, continues |
| Gates.UnreasonableAnswerEnds | main.py:65-67 | an "UNREASONABLE" answer is rejected although it also matches "REASONABLE" |
| Gates.LowerCaseRejectionEnds | main.py:63-67 | a lower-case "unreasonable" in the answer also ends the run |
| Gates.FirstMalformed | main.py:104-112 | the first room failing the per-room test, with every earlier room passing; none exactly when all rooms pass |
| Gates.FindMalformedRoom | main.py:104-112 | the loop over the rooms stops at exactly that first malformed room |
| Gates.StructuralProblem | main.py:89-112 | phase 1 passes exactly when rooms are present and non-empty, width, height and total area are present and non-zero, and every room passes; each fault is reported exactly when every earlier check passed and its own check fails; a reported room number is one-based and names the first failing room |
| Gates.AllocationVerdict | main.py:86-151 | a structural fault is reported exactly when phase 1 finds one, and it is that fault; otherwise the verdict is the model's answer classified on "INVALID" and "VALID" |
| Gates.AllocationRoute | main.py:86-151 | Gate B ends the run exactly when phase 1 fails, the model call raised, or the normalized answer contains "INVALID" |
| Gates.StructuralFaultIgnoresModel | main.py:89-112 | when phase 1 fails, the model's answer plays no part in the verdict, so no call is needed |
| Gates.InvalidAnswerEnds | main.py:137-139 | after phase 1 passes, an "INVALID" answer is rejected although it also matches "VALID" |
| Gates.RecordRoomsPassPhaseOne | main.py:104-112 | rooms stored as `Room` records always pass the per-room test, so a plan with non-zero dimensions, a non-zero total area and one room or more passes phase 1 |
| Gates.EmptyRoomsReportedMissing | main.py:89-91 | an empty room list is reported as missing rooms, whatever else the state holds |
| Graph.Next | main.py:341-367 | every edge of the wiring leads to a later step, so the graph has no cycle; a gated step goes on exactly when its gate says "CONTINUE"; `plan_output` ends the run |
| Graph.RouteAt | main.py:344-362 | only `verify_request` and `validate_allocation` consult a routing function, Gate A and Gate B respectively; after every other step the route plays no part |
| Graph.PlainEdgesIgnoreRoute | main.py:355-367 | a step wired with a plain edge moves on the same way whatever the route |
| Graph.Walk | main.py:341-367 | a walk starts at its step and has at most one step per node from there on |
| Graph.Run | main.py:341-369 | a run starts at `verify_request`, the entry point, and has at most eight steps |
| Graph.RunIsOneOfThree | main.py:341-367 | every run is one of three: stopped after `verify_request`, stopped after `validate_allocation`, or the full eight-step chain |
| Graph.WalkMovesForward | main.py:341-367 | along a run the steps come strictly later and later in the wiring |
| Graph.NoStepRunsTwice | main.py:341-367 | no step runs twice in a run |
| Graph.WalkEndsAtFinish | main.py:341-367 | each step of a run is followed by the target of its edge, and the last step's edge is the end |
| Graph.DeduplicationPrecedesRendering | main.py:365-366 | whenever the renderer runs, the deduplication step ran just before it |
| Pipeline.PipelineState.constructor | main.py:415 | a run starts with only the request in the state |
| Pipeline.PipelineState.RoomAllocator | main.py:176-179 | height, width, total area and rooms are copied from the allocation; nothing else changes |
| Pipeline.PipelineState.ValidateAllocation | main.py:79-84 | the validation flag is set to false; nothing else changes |
| Pipeline.PipelineState.ShouldContinueAfterAllocation | main.py:86-151 | the route is Gate B's route on the state's fields; the flag becomes true exactly when the route is "CONTINUE" and is otherwise left alone |
| Pipeline.PipelineState.RoomPlanner | main.py:211 | the layout is stored; nothing else changes |
| Pipeline.PipelineState.DoorPlanner | main.py:242 | a new door plan object holding the model's doors is stored |
| Pipeline.PipelineState.ValidatePlan | main.py:275-294 | the door plan's list is replaced in place by its deduplication; the removed count is old length minus new length, and the warning is issued exactly when duplicate pairs existed |
| Pipeline.PipelineState.PlanRenderer | main.py:260-270 | what is drawn is the stored layout with the door plan's current list |
| Pipeline.PipelineState.PlanOutput | main.py:300-302 | the picture saved is the rendered one |
| Pipeline.Execute | main.py:330-339 | running a step hands the graph the gate's route, and leaves the state ready for the next step |
| Pipeline.RunValidationStep | main.py:51-151 | `verify_request`, `room_allocator` and `validate_allocation` with its gate each hand on the gate's route and leave the state ready for the next step |
| Pipeline.RunDesignStep | main.py:188-302 | the layout, door, deduplication, rendering and output steps each leave the state ready for the next step; only the output step yields a picture, showing the layout and the deduplicated doors |
| Pipeline.Advance | main.py:341-367 | one turn of the run follows the step's edge and keeps the run's progress invariant |
| Pipeline.Invoke | main.py:341-367 | the steps run are exactly the graph's run for the two gates' routes; a picture is saved exactly when both gates continue, and it shows the layout with the deduplicated doors; once Gate B has run, the flag says whether it passed |
| UserInput.CheckLine | main.py:385-393 | a blank line gets the "description" warning, a trimmed line shorter than ten characters gets the "more detail" warning, and any other line is accepted, trimmed |
| UserInput.AcceptedRequestIsStable | main.py:385-395 | an accepted request, typed in again, is accepted unchanged |
| UserInput.GetUserInput | main.py:384-395 | the loop returns the first acceptable line, trimmed, with one warning for each earlier line; at end of input every line was rejected |

## Left out

- The language model and its prompt templates are left out. Every answer is
  an input (`Gates.Reply`, `Pipeline.Gateway`). The prompts, the summary
  text built for Gate B (room summary, `total_room_area`), and `create_llm`
  are not modelled.
- Drawing (`draw_plan`, which calls `get_room_color`), saving the figure to
  `floor_plan.png`, progress bars, sleeps and all terminal output are left
  out. A `Models.Rendering` records what would be drawn.
- The LangGraph runtime is not modelled. `Pipeline.Invoke` runs the wiring
  directly. LangGraph may discard a change a routing function makes to
  the state dictionary. The model keeps Gate B's `_validation_passed`
  write, as the code is written.
- Pipeline.Invoke: the structured calls (`room_allocator`, `room_planner`,
  `door_planner`), drawing and saving always succeed. An exception from any
  of them escapes `graph.invoke` and ends the run without a picture; that
  path is not modelled, so "a picture is saved exactly when both gates
  continue" holds for runs in which those calls return.
- `main` and its exception handlers, `KeyboardInterrupt` and interrupts are
  left out. `verify_request` only prints, so in the model it does nothing to
  the state. The `messages` key of the state is never used and is not
  modelled.
- `plan_output`'s summary box (room breakdown and counts) is output only and
  is not modelled.
- Models.Measure: the floating-point fields are integers. The only thing the
  gates ask of a float is whether it is zero, and the model never computes
  with one. NaN and infinities cannot be represented.
- Text.Upper: only ASCII letters are mapped. The Unicode case mapping of
  `str.upper()` (for example "ß" becoming "SS", or "ı" becoming "I") is not
  modelled, so the gates' word tests are exact only for answers whose letters
  are ASCII.
- Colors.IsDigit: covers the ASCII digits and the superscripts ¹²³. The other
  Unicode characters for which `str.isdigit()` is true are treated as
  non-digits.
- UserInput.GetUserInput: the terminal is a sequence of lines. Running out of
  lines stands for the end-of-input error `input()` raises, which
  `get_user_input` does not catch.
