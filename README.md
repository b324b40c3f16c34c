# Cognition dialogue engine, modelled in Dafny

Cognition drives a conversation through a graph of decision nodes loaded from YAML. Every
node has a text the agent says, optional choices (edges labelled with a text and the id of
the next node), an optional tool to run, and two flags: `reset` clears the conversation
history when the node is entered, and `predict: false` stops automatic chaining at the node.
A `DecisionState` session keeps the history string and a cursor (`current_id`, initially
`"start"`). One call of `run_decision` is a turn:

- it looks up the node under the cursor and stops at once if the node has no choices;
- with a user reply it picks an edge: the only one, or, when there are several, the first
  whose trimmed text is exactly the language model's answer to a prompt built from the
  decision template;
- it records the exchange in the history (only on the first pass of a turn);
- it follows the chosen edge, records it as a prediction, and enters the new node: reset,
  predict flag, tool;
- it keeps going while an edge was taken and the entered node allows prediction, for at
  most five passes;
- it returns the node under the cursor, the prompt, the predictions and the last tool
  response.

The model has these modules:

- `Engine` (engine.dfy) holds the node and result datatypes and the class `DecisionState`.
  `RunDecision` is the imperative loop over the session's fields. It is proved to compute
  exactly the pure function `Turn`, which is built from `Iteration`, one pass, and
  `RunLoop`, the loop.
- `TurnProperties` (turn_properties.dfy) states what a turn guarantees. It also works
  through two concrete conversations and one concrete choice-matching example.
- `Templates` covers the prediction-prompt template, four chained replace-alls.
- `Config` is the dotted key-path walk over an already parsed configuration value.
- `Tools` holds the tool union with the deterministic `Signal` tool.
- `Strings` holds the Rust string operations the code relies on: `trim`, `replace`,
  `split`, `join` and `position`.
- `Cognition` holds the shared error and response shapes.
- `Wrappers` holds `Option` and `Result`.

The language model is the field `model`, a function from prompt to a result. A tool that is
not a `Signal` carries its own run function.

Some behaviour the code shows and the model keeps:

- When the model's answer matches no choice, the cursor stays where it is. The node under
  it is still "entered" again: its `reset` applies and its tool runs on the reply
  (`TurnProperties.NoMatchKeepsCursor`).
- An error in the middle of a turn leaves the history and cursor changes made before it
  in place.

## Model

| member | source | states |
|---|---|---|
| Engine.FindNode | crates/cognition/src/engine.rs:80-85 | returns the first node in list order with the id; otherwise the "Decision node with ID '…' not found" error, and only when no node has that id |
| Engine.FindTool | crates/cognition/src/engine.rs:241-245 | returns the first registered tool with the id; otherwise "Could not find tool: …", and only when no tool has it |
| Engine.DecisionState.constructor | crates/cognition/src/engine.rs:46-73 | stores the model, template and nodes; no tools; speakers "Agent" and "User"; empty history; cursor at "start" |
| Engine.DecisionState.AddTool | crates/cognition/src/engine.rs:76-78 | the tool is appended after the registered ones and nothing else changes |
| Engine.DecisionState.DecisionNode | crates/cognition/src/engine.rs:80-85 | the first node in list order with the id; otherwise the "Decision node with ID '…' not found" error, and only when no node has the id |
| Engine.DecisionState.CurrentNode | crates/cognition/src/engine.rs:87-89 | the same first-match lookup, with the same error, for the id under the cursor |
| Engine.Decision.Choices | crates/cognition/src/engine.rs:20-24 | definition only: an absent choice list is the empty one; `TurnProperties.TerminalNodeEndsTurn` states the consequence |
| Engine.ChoiceTexts | crates/cognition/src/engine.rs:146-149 | one entry per choice, each choice's text trimmed |
| Engine.SelectChoice | crates/cognition/src/engine.rs:133-182 | no choice without input; the only choice, with no prompt, when there is one; otherwise a model error becomes "Failed to generate choice: …", and an answer selects the choice `Engine.MatchChoice` gives (the first whose trimmed text equals the answer, none when no trimmed text does) and yields the prompt with the answer appended |
| Engine.MatchChoice | crates/cognition/src/engine.rs:175-179 | the answer, untrimmed, selects the first choice whose trimmed text equals it; no choice exactly when no trimmed text equals it |
| Engine.PredictionPrompt | crates/cognition/src/engine.rs:146-160 | definition only: the template formatted with the history, the node's text, the trimmed choice texts joined by "\n  - ", and the reply; `Templates` states what formatting does |
| Engine.AppendExchange | crates/cognition/src/engine.rs:188-197 | definition only: separator when the history is non-empty, the agent's line, the user's line; `Engine.DecisionState.PushExchange` is proved to build it step by step and `TurnProperties.HistoryChanges` says when a turn uses it |
| Engine.RunNodeTool | crates/cognition/src/engine.rs:236-248 | the tool runs only with input and when the node names one, otherwise the previous response is kept; an unregistered tool id is an error |
| Engine.Follow | crates/cognition/src/engine.rs:184-216 | definition only: the first half of a pass; `TurnProperties.FollowMovesOnlyOnChoice` and `TurnProperties.FollowHistory` characterise it |
| Engine.Enter | crates/cognition/src/engine.rs:218-253 | a pass that goes on has spent one unit of depth and still has at least one left |
| Engine.Iteration | crates/cognition/src/engine.rs:122-254 | the same depth accounting for a whole pass |
| Engine.RunLoop | crates/cognition/src/engine.rs:122-254 | definition only: passes until one stops or fails; `TurnProperties.RunLoopPredictionBound`, `TurnProperties.RunLoopKeepsTracked`, `TurnProperties.RunLoopWhilePredicting` and `TurnProperties.RunLoopAppliesReset` state what it keeps |
| Engine.Finish | crates/cognition/src/engine.rs:256-266 | definition only: the result built around the node under the cursor; `TurnProperties.FinalCursor` characterises it |
| Engine.Turn | crates/cognition/src/engine.rs:111-267 | definition only: the loop and then the final lookup; `Engine.RunDecision` is proved to compute it, and the TurnProperties lemmas state what it guarantees |
| Engine.DecisionState.PushExchange | crates/cognition/src/engine.rs:185-199 | the history becomes the old history plus one exchange: a separator only if it was non-empty, then the agent's line, then the user's line |
| Engine.DecisionState.PredictChoice | crates/cognition/src/engine.rs:133-182 | computes exactly the selection `SelectChoice` specifies, from the session's current history |
| Engine.DecisionState.FollowSelection | crates/cognition/src/engine.rs:184-216 | the new history, cursor and loop variables are exactly those of `Follow` applied to the old state |
| Engine.DecisionState.EnterCurrentNode | crates/cognition/src/engine.rs:218-253 | the step taken and the new state are exactly those of `Enter` applied to the old state |
| Engine.RunDecision | crates/cognition/src/engine.rs:111-267 | the new history and cursor and the returned result are exactly `Turn` of the old state, errors included |
| Engine.TurnAborts | crates/cognition/src/engine.rs:122-254 | a pass that fails ends the whole turn with that error and the state reached so far |
| Engine.TurnStops | crates/cognition/src/engine.rs:250-266 | a pass that stops ends the loop, and the turn finishes from the state it stopped in |
| Engine.RunLoopNext | crates/cognition/src/engine.rs:250-254 | a pass that goes on hands its state to the next pass |
| TurnProperties.TerminalNodeEndsTurn | crates/cognition/src/engine.rs:128-131 | at a node without choices the turn changes nothing and returns that node with no prompt, no choice, no predictions and no tool response |
| TurnProperties.NoInputTurn | crates/cognition/src/engine.rs:134-136 | without input: no exchange, no prediction, the cursor stays, one pass only; the history changes only by being cleared when the current node has choices and asks for a reset |
| TurnProperties.SingleChoiceBypassesModel | crates/cognition/src/engine.rs:137-140 | with input and one choice, the pass is the same whatever the language model is |
| TurnProperties.ModelFailureAbortsTurn | crates/cognition/src/engine.rs:163-167 | at the node the turn starts from (first pass), when it has several choices, a model error ends the turn with "Failed to generate choice" and the state unchanged |
| TurnProperties.NoMatchKeepsCursor | crates/cognition/src/engine.rs:176-234 | at the node the turn starts from (first pass), an answer matching no choice keeps the cursor and records the exchange, unless the node resets; the node's tool runs; the prompt with the answer is reported; no prediction is made |
| TurnProperties.MatchFollowsChoice | crates/cognition/src/engine.rs:163-216 | when the answer is the trimmed text of a choice, the first such choice is taken on the first pass: exchange recorded, prompt with the answer kept, the choice recorded as the first prediction, and the cursor moved along its edge |
| TurnProperties.MatchChoiceOfFirst | crates/cognition/src/engine.rs:176-179 | the first choice whose trimmed text equals the answer is the one selected |
| TurnProperties.FollowMovesOnlyOnChoice | crates/cognition/src/engine.rs:202-216 | the cursor moves, and a prediction naming the new cursor is appended, exactly when an edge was chosen |
| TurnProperties.EnterKeepsCursor | crates/cognition/src/engine.rs:218-253 | entering a node changes neither the cursor nor the predictions |
| TurnProperties.IterationStep | crates/cognition/src/engine.rs:202-253 | a pass either keeps cursor and predictions, or appends one prediction naming the new cursor, an existing node; a pass that goes on has chosen an edge into a node without `predict: false` |
| TurnProperties.RunLoopPredictionBound | crates/cognition/src/engine.rs:250-253 | the loop adds at most one prediction per remaining unit of depth |
| TurnProperties.PredictionBound | crates/cognition/src/engine.rs:120 | a turn returns at most five predictions |
| TurnProperties.IterationKeepsTracked | crates/cognition/src/engine.rs:207-215 | a pass keeps every prediction naming an existing node and the last one naming the cursor |
| TurnProperties.AppendKeepsTracked | crates/cognition/src/engine.rs:207-215 | appending a prediction that names the new cursor keeps the predictions tracked |
| TurnProperties.RunLoopKeepsTracked | crates/cognition/src/engine.rs:122-254 | the whole loop keeps the predictions tracked |
| TurnProperties.FinalCursor | crates/cognition/src/engine.rs:256-266 | a successful turn returns `Some`, never a choice, the caller's input, the final cursor and the node under it, and predictions whose last one names that node |
| TurnProperties.FollowHistory | crates/cognition/src/engine.rs:185-199 | the first half of a pass appends the exchange only with input and before any prediction |
| TurnProperties.EnterHistory | crates/cognition/src/engine.rs:222-224 | entering a node only keeps or clears the history |
| TurnProperties.IterationHistory | crates/cognition/src/engine.rs:185-224 | a pass leaves the history as it was, cleared, or extended by one exchange at the pass's node when not yet predicting |
| TurnProperties.RunLoopWhilePredicting | crates/cognition/src/engine.rs:186 | once predicting, later passes only keep or clear the history |
| TurnProperties.HistoryChanges | crates/cognition/src/engine.rs:185-224 | a turn's history is unchanged, empty, or the old history plus one exchange at the starting node |
| TurnProperties.TurnKeepsLoopConversation | crates/cognition/src/engine.rs:256-266 | the final lookup does not change the conversation |
| TurnProperties.EnterAppliesReset | crates/cognition/src/engine.rs:222-224 | after entering a node that asks for a reset, the history is empty |
| TurnProperties.IterationAppliesReset | crates/cognition/src/engine.rs:222-224 | the same after any pass that does not fail |
| TurnProperties.RunLoopAppliesReset | crates/cognition/src/engine.rs:222-224 | the same after the loop |
| TurnProperties.ResetClearsHistory | crates/cognition/src/engine.rs:222-224 | a successful turn that ends at a resetting node, having entered one, leaves the history empty |
| TurnProperties.EnterGoesOn | crates/cognition/src/engine.rs:227-253 | with depth to spare and the node's tool succeeding, entering goes on exactly when an edge was chosen while predicting, into a node without `predict: false` |
| TurnProperties.IterationGoesOn | crates/cognition/src/engine.rs:202-253 | a pass that takes an edge into a node without `predict: false`, whose tool succeeds, goes on to another pass while depth remains |
| TurnProperties.EnterMissingTool | crates/cognition/src/engine.rs:219-245 | entering, with a reply, any node whose tool is not registered fails with "Could not find tool: …", after the node's reset |
| TurnProperties.IterationMissingTool | crates/cognition/src/engine.rs:122-245 | any pass with a reply, first or later, whose selection leaves the cursor on, or moves it to, a node with an unregistered tool fails with that error, whether the edge was the only one, chosen by the model, or none |
| TurnProperties.MissingToolAbortsTurn | crates/cognition/src/engine.rs:241-245 | a turn with a reply ends with "Could not find tool: …" when the start node's only choice leads to a node with an unregistered tool |
| TurnProperties.EnterStoresToolResponse | crates/cognition/src/engine.rs:236-248 | a node entered without failing leaves as tool response the result of running the node's tool on the reply, or the previous response when no tool ran |
| TurnProperties.ToolResponseHandedOn | crates/cognition/src/engine.rs:207-211 | the prediction a pass makes carries the tool response held when the pass started, and the pass then holds the response of the node it moved to |
| TurnProperties.AnswerIsMatchedUntrimmed | crates/cognition/src/engine.rs:146-179 | " Yes " is selected by the answer "Yes" but not by " Yes": choices are trimmed, answers are not |
| TurnProperties.FindNodeAt | crates/cognition/src/engine.rs:80-85 | a node is found by its id when no earlier node shares the id |
| TurnProperties.SignalChainScenario | crates/cognition/src/engine.rs:111-267 | a one-choice chain start → x (signal tool) → y: one exchange in the history, cursor at y, two predictions, the second carrying the signal response |
| TurnProperties.PredictedChoiceScenario | crates/cognition/src/engine.rs:141-216 | with two choices and a model answering "yes", the turn follows "yes" to the terminal node and reports the prompt with the answer and one prediction |
| Templates.DecisionPromptTemplate.Format | crates/cognition/src/templates/decision.rs:10-22 | definition only: four replace-alls in the fixed order; `Templates.FormatWithoutPlaceholders`, `Templates.FormatReplacesEveryOccurrence`, `Templates.FormatRescansEarlierValues` and `Templates.FormatKeepsEarlierPlaceholders` characterise it |
| Templates.New | crates/cognition/src/templates/decision.rs:5-7 | the template keeps the text as given |
| Templates.FormatWithoutPlaceholders | crates/cognition/src/templates/decision.rs:17-21 | a template with none of the four placeholders formats to itself, unknown `{{…}}` markers included |
| Templates.FormatReplacesEveryOccurrence | crates/cognition/src/templates/decision.rs:18 | a substitution cuts the text at every non-overlapping occurrence, leaving no occurrence in any piece, and puts the value in every cut |
| Templates.FormatRescansEarlierValues | crates/cognition/src/templates/decision.rs:18-21 | substitution order is fixed, and a later placeholder inside an earlier value is replaced too |
| Templates.FormatKeepsEarlierPlaceholders | crates/cognition/src/templates/decision.rs:18-21 | the converse: an earlier placeholder inside a later value is left as it is |
| Config.Walk | crates/cognition/src/config.rs:10-22 | definition only: the reference key walk; `Config.ObjectByPath` is proved to compute it, and `Config.WalkAppend`, `Config.WalkStopsAtMissingKey` and `Config.WalkStopsAtNonObject` characterise it |
| Config.ObjectByPath | crates/cognition/src/config.rs:4-23 | the result is the walk along the path's "."-separated keys |
| Config.StringByPath | crates/cognition/src/config.rs:25-33 | the string at the path, and nothing when the path is missing or leads to a non-string |
| Config.WalkAppend | crates/cognition/src/config.rs:10-22 | walking two key lists in a row is walking the first, then the second from where it ended |
| Config.WalkStopsAtMissingKey | crates/cognition/src/config.rs:12-15 | a key missing from the object reached makes the whole walk fail |
| Config.WalkStopsAtNonObject | crates/cognition/src/config.rs:11-18 | reaching a non-object before a key makes the whole walk fail |
| Config.PathConcat | crates/cognition/src/config.rs:8-22 | looking up "p.q" is looking up "p", then "q" from the value found |
| Tools.Signal.Run | crates/cognition/src/tools/signal.rs:24-30 | always `Ok(Some(_))`, with the tool's id and its signal text |
| Tools.SignalIgnoresInput | crates/cognition/src/tools/signal.rs:24-30 | the response does not depend on the input |
| Tools.SignalToolReportsItsFields | crates/cognition/src/tools/signal.rs:12-30 | as a tool, the signal reports its stored id, name and description and answers with its id and signal |
| Tools.Tool.Id | crates/cognition/src/tools/mod.rs:16 | definition only: the tool's id; `Tools.SignalToolReportsItsFields` gives it for the signal tool |
| Tools.Tool.Name | crates/cognition/src/tools/mod.rs:17 | definition only: the tool's name |
| Tools.Tool.Description | crates/cognition/src/tools/mod.rs:18 | definition only: the tool's description |
| Tools.Tool.Run | crates/cognition/src/tools/mod.rs:19 | definition only: the signal tool's run, or an external tool's own run function |
| Tools.ToolIds | crates/cognition/src/engine.rs:241-244 | one id per registered tool, in order |
| Strings.IsWhitespace | crates/cognition/src/engine.rs:148 | definition only: Rust's `char::is_whitespace`, the 25 code points with the Unicode White_Space property; `Strings.TrimIsMaximalStrip` states what `trim` does with them |
| Strings.TrimStartIndex | crates/cognition/src/engine.rs:148 | the length of the maximal leading whitespace run |
| Strings.TrimEndIndex | crates/cognition/src/engine.rs:148 | the end of the string without its maximal trailing whitespace run |
| Strings.Trim | crates/cognition/src/engine.rs:148 | a slice of the input with only whitespace around it, which neither starts nor ends with whitespace |
| Strings.TrimIsMaximalStrip | crates/cognition/src/engine.rs:148 | any slice with those two properties is the trim: trimming strips exactly the maximal runs |
| Strings.TrimKeepsUnpadded | crates/cognition/src/engine.rs:148 | a string without whitespace at either end is its own trim |
| Strings.Split | crates/cognition/src/config.rs:8 | a split yields at least one piece |
| Strings.JoinSplit | crates/cognition/src/config.rs:8 | joining a split with its pattern gives the original string back |
| Strings.SplitFirstIsPrefix | crates/cognition/src/config.rs:8 | the first piece is a prefix of the string |
| Strings.SplitPiecesAvoidPattern | crates/cognition/src/config.rs:8 | no piece contains the pattern |
| Strings.SplitWithoutPattern | crates/cognition/src/config.rs:8 | a string without the pattern is one piece |
| Strings.SplitAtSeparator | crates/cognition/src/config.rs:8 | splitting on a one-character separator distributes over a separator between two strings |
| Strings.Join | crates/cognition/src/engine.rs:151 | definition only: the pieces with the separator between neighbours, as `join("\n  - ")` builds the choice list of the prompt; `Strings.JoinSplit` and `Strings.ReplaceAllIsJoinOfSplit` characterise it |
| Strings.ReplaceAll | crates/cognition/src/templates/decision.rs:18-21 | definition only: left-to-right, non-overlapping replacement; `Strings.ReplaceAllIsJoinOfSplit` and `Strings.ReplaceAllAbsent` characterise it |
| Strings.ReplaceAllIsJoinOfSplit | crates/cognition/src/templates/decision.rs:18-21 | replace-all is cutting at every occurrence and joining with the value |
| Strings.ReplaceAllAbsent | crates/cognition/src/templates/decision.rs:18-21 | replace-all leaves a string without the pattern unchanged |
| Strings.Position | crates/cognition/src/engine.rs:176-179 | the index of the first element equal to the target, and none only when no element equals it |
| Strings.PositionOfFirst | crates/cognition/src/engine.rs:176-179 | an element equal to the target with none equal before it is at the position found |

## Left out

- YAML parsing (crates/cognition/src/config.rs:5-6) is not modelled. The lookups receive the
  already parsed value, so the parse-failure panic cannot occur.
- Config.Value: null, booleans, numbers and arrays are one case, `Other`, because the path
  walk treats them alike.
- The language-model clients (models/davinci003.rs, models/textgen.rs) are not part of this
  model: HTTP, JSON and `f32` sampling. The model is a function parameter of the session,
  and the fixed arguments 200 and 0.5 at engine.rs:165 are dropped.
- Engine.DecisionState.constructor takes the model as an argument instead of building the
  HTTP client from a configuration string (engine.rs:52).
- tools/wolfram_alpha.rs is not part of this model. Such a tool is an `ExternalTool` whose
  run function is a parameter.
- The command-line program (cognition-cli), logging, and `async`/`await` are not modelled.
  The awaits are sequential calls.
- `Decision.predictedText` is carried but never read, as in the code.
- Strings.ReplaceAll and Strings.Split require a non-empty pattern. Every caller passes a
  fixed non-empty placeholder or ".".
- Cognition.InferenceResult keeps only the answer text. The per-token probabilities (`Vec<f32>`) of models/mod.rs:32 are dropped, because the engine never reads them.
- The language model and external tools are pure functions, so the same prompt always gets the same answer. A real model sampling at temperature 0.5 need not, for example when a resetting node whose chosen edge leads back to itself asks the same prompt twice in one turn. No property above depends on repeated calls agreeing.
- Integer widths do not matter here: the depth counter runs from 5 down to 0.
