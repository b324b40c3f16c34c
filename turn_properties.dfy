/** What one turn of the decision engine guarantees, stated about the specification `Turn`
    that `Engine.RunDecision` is proved to compute. */
module TurnProperties {
  import opened Wrappers
  import opened Strings
  import opened Cognition
  import opened Tools
  import opened Engine

  /** A node without choices ends the turn at once: nothing is chosen, recorded or changed,
      and the node itself is reported. */
  lemma TerminalNodeEndsTurn(ctx: TurnContext, input: Option<string>, c: Conversation, node: Decision)
    requires FindNode(ctx.nodes, c.currentId) == Ok(node)
    requires |node.Choices()| == 0
    ensures Turn(ctx, input, c) == TurnOutcome(c, Ok(Some(DecisionResult(input, None, None, c.currentId, node, [], None))))
  {
    assert Iteration(ctx, input, c, InitialLoop()) == Stop(c, InitialLoop());
  }

  /** Without user input nothing is chosen, no exchange is recorded and the cursor stays;
      the one change the turn can make is clearing the history, when the current node has
      choices and asks for a reset (it is then entered again). */
  lemma NoInputTurn(ctx: TurnContext, c: Conversation)
    ensures Turn(ctx, None, c) ==
      match FindNode(ctx.nodes, c.currentId)
      case Err(e) => TurnOutcome(c, Err(e))
      case Ok(node) =>
        var after := if |node.Choices()| > 0 && node.reset == Some(true) then c.(history := []) else c;
        TurnOutcome(after, Ok(Some(DecisionResult(None, None, None, c.currentId, node, [], None))))
  {
    var l := InitialLoop();
    match FindNode(ctx.nodes, c.currentId)
    case Err(e) =>
      assert Iteration(ctx, None, c, l) == Abort(c, e);
    case Ok(node) =>
      if |node.Choices()| > 0 {
        assert SelectChoice(ctx, c.history, node, None) == Ok(Selection(None, None));
        assert Follow(ctx, None, c, l, node, Selection(None, None)) == (c, l);
        var after := if node.reset == Some(true) then c.(history := []) else c;
        assert Enter(ctx, None, c, l, false) == Stop(after, l.(maxDepth := MaxDepth - 1));
        assert Iteration(ctx, None, c, l) == Stop(after, l.(maxDepth := MaxDepth - 1));
      } else {
        assert Iteration(ctx, None, c, l) == Stop(c, l);
      }
  }

  /** With input and a single choice the model is never consulted: any two models give the
      same pass. */
  lemma SingleChoiceBypassesModel(ctx: TurnContext, model: string -> Result<InferenceResult, ModelError>,
                                  input: string, c: Conversation, l: LoopState, node: Decision)
    requires l.maxDepth >= 1
    requires FindNode(ctx.nodes, c.currentId) == Ok(node)
    requires |node.Choices()| == 1
    ensures Iteration(ctx, Some(input), c, l) == Iteration(ctx.(model := model), Some(input), c, l)
  {
    var other := ctx.(model := model);
    assert SelectChoice(ctx, c.history, node, Some(input)) == SelectChoice(other, c.history, node, Some(input));
    var selection := Selection(Some(node.Choices()[0]), None);
    var (c', l') := Follow(ctx, Some(input), c, l, node, selection);
    assert Follow(other, Some(input), c, l, node, selection) == (c', l');
    assert Enter(ctx, Some(input), c', l', true) == Enter(other, Some(input), c', l', true);
  }

  /** A failing model call ends the turn with its error before anything is recorded. */
  lemma ModelFailureAbortsTurn(ctx: TurnContext, input: string, c: Conversation, node: Decision, e: ModelError)
    requires FindNode(ctx.nodes, c.currentId) == Ok(node)
    requires |node.Choices()| >= 2
    requires ctx.model(PredictionPrompt(ctx, c.history, node, input)) == Err(e)
    ensures Turn(ctx, Some(input), c) == TurnOutcome(c, Err(GenerateFailed(e)))
  {
    assert Iteration(ctx, Some(input), c, InitialLoop()) == Abort(c, GenerateFailed(e));
  }

  /** When the model's answer names none of the choices, the cursor stays; the exchange is
      recorded and the current node is entered again, so its reset and its tool apply. The
      prompt with the answer is reported and no prediction is made. */
  lemma NoMatchKeepsCursor(ctx: TurnContext, input: string, c: Conversation, node: Decision, answer: InferenceResult)
    requires FindNode(ctx.nodes, c.currentId) == Ok(node)
    requires |node.Choices()| >= 2
    requires ctx.model(PredictionPrompt(ctx, c.history, node, input)) == Ok(answer)
    requires forall i :: 0 <= i < |node.Choices()| ==> Trim(node.Choices()[i].text) != answer.text
    ensures
      var prompt := Some(PredictionPrompt(ctx, c.history, node, input) + answer.text);
      var recorded := AppendExchange(c.history, ctx.agent, node.text, ctx.user, input);
      var after := Conversation(if node.reset == Some(true) then [] else recorded, c.currentId);
      Turn(ctx, Some(input), c) ==
        match RunNodeTool(ctx.tools, node, Some(input), None)
        case Err(e) => TurnOutcome(after, Err(e))
        case Ok(response) => TurnOutcome(after, Ok(Some(DecisionResult(Some(input), prompt, None, c.currentId, node, [], response))))
  {
    var l := InitialLoop();
    var prompt := Some(PredictionPrompt(ctx, c.history, node, input) + answer.text);
    var selection := Selection(None, prompt);
    assert SelectChoice(ctx, c.history, node, Some(input)) == Ok(selection);
    var recorded := Conversation(AppendExchange(c.history, ctx.agent, node.text, ctx.user, input), c.currentId);
    var followed := l.(decisionPrompt := prompt);
    assert Follow(ctx, Some(input), c, l, node, selection) == (recorded, followed);
    var after := if node.reset == Some(true) then recorded.(history := []) else recorded;
    match RunNodeTool(ctx.tools, node, Some(input), None)
    case Err(e) =>
      assert Iteration(ctx, Some(input), c, l) == Abort(after, e);
    case Ok(response) =>
      var stopped := followed.(toolResponse := response, maxDepth := MaxDepth - 1);
      assert Iteration(ctx, Some(input), c, l) == Stop(after, stopped);
  }

  /** When the model's answer is the trimmed text of a choice, the first such choice is taken
      on the first pass: the exchange is recorded, the prompt with the answer kept, the
      choice recorded as the first prediction, and the cursor moved along its edge before
      the node there is entered. */
  lemma MatchFollowsChoice(ctx: TurnContext, input: string, c: Conversation, node: Decision, answer: InferenceResult, i: nat)
    requires FindNode(ctx.nodes, c.currentId) == Ok(node)
    requires |node.Choices()| >= 2
    requires ctx.model(PredictionPrompt(ctx, c.history, node, input)) == Ok(answer)
    requires FirstExactMatch(node.Choices(), answer.text, i)
    ensures
      var taken := node.Choices()[i];
      var prompt := Some(PredictionPrompt(ctx, c.history, node, input) + answer.text);
      var moved := Conversation(AppendExchange(c.history, ctx.agent, node.text, ctx.user, input), taken.nextId);
      Iteration(ctx, Some(input), c, InitialLoop()) ==
        Enter(ctx, Some(input), moved, LoopState(true, None, prompt, [Prediction(taken.text, taken.nextId, None)], MaxDepth), true)
  {
    var l := InitialLoop();
    var taken := node.Choices()[i];
    var prompt := Some(PredictionPrompt(ctx, c.history, node, input) + answer.text);
    var selection := Selection(Some(taken), prompt);
    var moved := Conversation(AppendExchange(c.history, ctx.agent, node.text, ctx.user, input), taken.nextId);
    var followed := LoopState(true, None, prompt, [Prediction(taken.text, taken.nextId, None)], MaxDepth);
    assert SelectChoice(ctx, c.history, node, Some(input)) == Ok(selection) by {
      MatchChoiceOfFirst(node.Choices(), answer.text, i);
    }
    assert l.predictions + [Prediction(taken.text, taken.nextId, None)] == [Prediction(taken.text, taken.nextId, None)];
    assert Follow(ctx, Some(input), c, l, node, selection).0 == moved;
    assert Follow(ctx, Some(input), c, l, node, selection).1 == followed;
  }

  /** The choice a first exact match names is the one the answer selects. */
  lemma MatchChoiceOfFirst(choices: seq<Choice>, answer: string, i: nat)
    requires FirstExactMatch(choices, answer, i)
    ensures MatchChoice(choices, answer) == Some(choices[i])
  {
    var texts := ChoiceTexts(choices);
    assert forall j :: 0 <= j < i ==> texts[j] != answer;
    PositionOfFirst(texts, answer, i);
  }

  /** Following a selection moves the cursor exactly when a choice was taken, and then
      records it as a prediction naming the new cursor. */
  lemma FollowMovesOnlyOnChoice(ctx: TurnContext, input: Option<string>, c: Conversation, l: LoopState, node: Decision, selection: Selection)
    ensures var (c', l') := Follow(ctx, input, c, l, node, selection);
      && (selection.next.None? ==> l'.predictions == l.predictions && c'.currentId == c.currentId && l'.predicting == l.predicting)
      && (selection.next.Some? ==>
            && l'.predictions == l.predictions + [Prediction(selection.next.value.text, c'.currentId, l.toolResponse)]
            && c'.currentId == selection.next.value.nextId
            && l'.predicting)
  {
  }

  /** Entering keeps the cursor and the predictions; it succeeds only at a node of the graph,
      and goes on only after a choice, into a node that allows prediction. */
  lemma EnterKeepsCursor(ctx: TurnContext, input: Option<string>, c: Conversation, l: LoopState, chose: bool)
    requires l.maxDepth >= 1
    ensures var st := Enter(ctx, input, c, l, chose);
      && (st.Stop? || st.Next? ==>
            && st.loop.predictions == l.predictions
            && st.conversation.currentId == c.currentId
            && FindNode(ctx.nodes, c.currentId).Ok?)
      && (st.Next? ==> st.loop.predicting && chose && l.predicting && FindNode(ctx.nodes, c.currentId).value.predict != Some(false))
  {
  }

  /** The converse of the continuation rule in `EnterKeepsCursor`: with depth to spare and the
      entered node's tool succeeding, entering goes on exactly when an edge was chosen while
      predicting, into a node that does not say `predict: false`. */
  lemma EnterGoesOn(ctx: TurnContext, input: Option<string>, c: Conversation, l: LoopState, chose: bool, entered: Decision)
    requires l.maxDepth >= 2
    requires FindNode(ctx.nodes, c.currentId) == Ok(entered)
    requires RunNodeTool(ctx.tools, entered, input, l.toolResponse).Ok?
    ensures Enter(ctx, input, c, l, chose).Next? <==> l.predicting && chose && entered.predict != Some(false)
  {
  }

  /** A pass whose selection takes an edge into a node that allows prediction and whose tool
      succeeds goes on to another pass while depth remains. */
  lemma IterationGoesOn(ctx: TurnContext, input: Option<string>, c: Conversation, l: LoopState,
                        node: Decision, selection: Selection, taken: Choice, entered: Decision)
    requires l.maxDepth >= 2
    requires FindNode(ctx.nodes, c.currentId) == Ok(node)
    requires |node.Choices()| > 0
    requires SelectChoice(ctx, c.history, node, input) == Ok(selection)
    requires selection.next == Some(taken)
    requires FindNode(ctx.nodes, taken.nextId) == Ok(entered)
    requires entered.predict != Some(false)
    requires RunNodeTool(ctx.tools, entered, input, l.toolResponse).Ok?
    ensures Iteration(ctx, input, c, l).Next?
  {
    var (c', l') := Follow(ctx, input, c, l, node, selection);
    EnterGoesOn(ctx, input, c', l', true, entered);
  }

  /** Entering, with a reply, a node whose tool is not registered fails with the tool-lookup
      error, after the node's reset has been applied. */
  lemma EnterMissingTool(ctx: TurnContext, input: string, c: Conversation, l: LoopState, chose: bool, node: Decision, toolId: string)
    requires l.maxDepth >= 1
    requires FindNode(ctx.nodes, c.currentId) == Ok(node)
    requires node.tool == Some(toolId)
    requires forall i :: 0 <= i < |ctx.tools| ==> ctx.tools[i].Id() != toolId
    ensures Enter(ctx, Some(input), c, l, chose) ==
      Abort(if node.reset == Some(true) then c.(history := []) else c, ToolNotFound(toolId))
  {
  }

  /** Any pass, the first or a later one, whose selection leads the cursor (moved along a
      chosen edge, or left in place when nothing was chosen) to a node with an unregistered
      tool fails with the tool-lookup error. */
  lemma IterationMissingTool(ctx: TurnContext, input: string, c: Conversation, l: LoopState,
                             node: Decision, selection: Selection, entered: Decision, toolId: string)
    requires l.maxDepth >= 1
    requires FindNode(ctx.nodes, c.currentId) == Ok(node)
    requires |node.Choices()| > 0
    requires SelectChoice(ctx, c.history, node, Some(input)) == Ok(selection)
    requires FindNode(ctx.nodes, Follow(ctx, Some(input), c, l, node, selection).0.currentId) == Ok(entered)
    requires entered.tool == Some(toolId)
    requires forall i :: 0 <= i < |ctx.tools| ==> ctx.tools[i].Id() != toolId
    ensures Iteration(ctx, Some(input), c, l).Abort?
    ensures Iteration(ctx, Some(input), c, l).error == ToolNotFound(toolId)
  {
    var (c', l') := Follow(ctx, Some(input), c, l, node, selection);
    EnterMissingTool(ctx, input, c', l', selection.next.Some?, entered, toolId);
  }

  /** Entering a node keeps the response of the tool it ran, or the previous one when no tool ran. */
  lemma EnterStoresToolResponse(ctx: TurnContext, input: Option<string>, c: Conversation, l: LoopState, chose: bool)
    requires l.maxDepth >= 1
    ensures var st := Enter(ctx, input, c, l, chose);
      st.Stop? || st.Next? ==>
        && FindNode(ctx.nodes, c.currentId).Ok?
        && RunNodeTool(ctx.tools, FindNode(ctx.nodes, c.currentId).value, input, l.toolResponse) == Ok(st.loop.toolResponse)
  {
  }

  /** The tool response held when a pass starts is the one attached to the prediction the
      pass makes; the pass then stores the response of the node it enters. */
  lemma ToolResponseHandedOn(ctx: TurnContext, input: Option<string>, c: Conversation, l: LoopState)
    requires l.maxDepth >= 1
    ensures var st := Iteration(ctx, input, c, l);
      && (st.Stop? || st.Next? ==> |st.loop.predictions| > |l.predictions| ==>
            st.loop.predictions[|l.predictions|].toolResponse == l.toolResponse)
      && (st.Stop? || st.Next? ==> |st.loop.predictions| > |l.predictions| ==>
            && FindNode(ctx.nodes, st.conversation.currentId).Ok?
            && RunNodeTool(ctx.tools, FindNode(ctx.nodes, st.conversation.currentId).value, input, l.toolResponse) == Ok(st.loop.toolResponse))
  {
    match FindNode(ctx.nodes, c.currentId)
    case Err(_) =>
    case Ok(node) =>
      if |node.Choices()| > 0 {
        match SelectChoice(ctx, c.history, node, input)
        case Err(_) =>
        case Ok(selection) =>
          var (c', l') := Follow(ctx, input, c, l, node, selection);
          FollowMovesOnlyOnChoice(ctx, input, c, l, node, selection);
          EnterKeepsCursor(ctx, input, c', l', selection.next.Some?);
          EnterStoresToolResponse(ctx, input, c', l', selection.next.Some?);
      }
  }

  /** A pass that does not fail either leaves the cursor and the predictions as they were,
      or appends one prediction naming the node it moved the cursor to, a node of the graph.
      Only a pass that took a choice goes on, and only into a node that allows prediction. */
  lemma IterationStep(ctx: TurnContext, input: Option<string>, c: Conversation, l: LoopState)
    requires l.maxDepth >= 1
    ensures var st := Iteration(ctx, input, c, l);
      && (st.Stop? || st.Next? ==>
            || (st.loop.predictions == l.predictions && st.conversation.currentId == c.currentId)
            || (&& |st.loop.predictions| == |l.predictions| + 1
                && st.loop.predictions == l.predictions + [st.loop.predictions[|l.predictions|]]
                && st.loop.predictions[|l.predictions|].id == st.conversation.currentId
                && FindNode(ctx.nodes, st.conversation.currentId).Ok?))
      && (st.Next? ==>
            && st.loop.predicting
            && |st.loop.predictions| == |l.predictions| + 1
            && FindNode(ctx.nodes, st.conversation.currentId).value.predict != Some(false))
  {
    match FindNode(ctx.nodes, c.currentId)
    case Err(_) =>
    case Ok(node) =>
      if |node.Choices()| > 0 {
        match SelectChoice(ctx, c.history, node, input)
        case Err(_) =>
        case Ok(selection) =>
          var (c', l') := Follow(ctx, input, c, l, node, selection);
          FollowMovesOnlyOnChoice(ctx, input, c, l, node, selection);
          EnterKeepsCursor(ctx, input, c', l', selection.next.Some?);
      }
  }

  /** The loop makes at most one prediction per unit of depth. */
  lemma {:induction false} RunLoopPredictionBound(ctx: TurnContext, input: Option<string>, c: Conversation, l: LoopState)
    requires l.maxDepth >= 1
    ensures RunLoop(ctx, input, c, l).loop.Ok? ==>
      |RunLoop(ctx, input, c, l).loop.value.predictions| <= |l.predictions| + l.maxDepth
    decreases l.maxDepth
  {
    var st := Iteration(ctx, input, c, l);
    IterationStep(ctx, input, c, l);
    if st.Next? {
      RunLoopPredictionBound(ctx, input, st.conversation, st.loop);
    }
  }

  /** A turn makes at most five predictions. */
  lemma PredictionBound(ctx: TurnContext, input: Option<string>, c: Conversation)
    ensures Turn(ctx, input, c).result.Ok? && Turn(ctx, input, c).result.value.Some? ==>
      |Turn(ctx, input, c).result.value.value.predictions| <= MaxDepth
  {
    RunLoopPredictionBound(ctx, input, c, InitialLoop());
  }

  /** The recorded predictions lead, in order, to nodes of the graph, and the last of them
      names the node under the cursor. */
  predicate PredictionsTracked(ctx: TurnContext, c: Conversation, predictions: seq<Prediction>) {
    && (|predictions| > 0 ==> predictions[|predictions| - 1].id == c.currentId)
    && forall i :: 0 <= i < |predictions| ==> FindNode(ctx.nodes, predictions[i].id).Ok?
  }

  lemma IterationKeepsTracked(ctx: TurnContext, input: Option<string>, c: Conversation, l: LoopState)
    requires l.maxDepth >= 1
    requires PredictionsTracked(ctx, c, l.predictions)
    ensures var st := Iteration(ctx, input, c, l);
      st.Stop? || st.Next? ==> PredictionsTracked(ctx, st.conversation, st.loop.predictions)
  {
    var st := Iteration(ctx, input, c, l);
    IterationStep(ctx, input, c, l);
    if st.Stop? || st.Next? {
      AppendKeepsTracked(ctx, c, l.predictions, st.conversation, st.loop.predictions);
    }
  }

  lemma AppendKeepsTracked(ctx: TurnContext, c: Conversation, predictions: seq<Prediction>, c': Conversation, predictions': seq<Prediction>)
    requires PredictionsTracked(ctx, c, predictions)
    requires || (predictions' == predictions && c'.currentId == c.currentId)
             || (&& |predictions'| == |predictions| + 1
                 && predictions' == predictions + [predictions'[|predictions|]]
                 && predictions'[|predictions|].id == c'.currentId
                 && FindNode(ctx.nodes, c'.currentId).Ok?)
    ensures PredictionsTracked(ctx, c', predictions')
  {
  }

  lemma {:induction false} RunLoopKeepsTracked(ctx: TurnContext, input: Option<string>, c: Conversation, l: LoopState)
    requires l.maxDepth >= 1
    requires PredictionsTracked(ctx, c, l.predictions)
    ensures var out := RunLoop(ctx, input, c, l);
      out.loop.Ok? ==> PredictionsTracked(ctx, out.conversation, out.loop.value.predictions)
    decreases l.maxDepth
  {
    var st := Iteration(ctx, input, c, l);
    IterationKeepsTracked(ctx, input, c, l);
    if st.Next? {
      RunLoopKeepsTracked(ctx, input, st.conversation, st.loop);
    }
  }

  /** A successful turn reports the node under the cursor it leaves, never a choice, and
      predictions that all lead to nodes of the graph, the last one to the reported node. */
  lemma FinalCursor(ctx: TurnContext, input: Option<string>, c: Conversation)
    ensures var out := Turn(ctx, input, c);
      out.result.Ok? ==>
        && out.result.value.Some?
        && var res := out.result.value.value;
        && res.choice == None
        && res.userInput == input
        && res.currentId == out.conversation.currentId
        && FindNode(ctx.nodes, res.currentId) == Ok(res.decisionNode)
        && PredictionsTracked(ctx, out.conversation, res.predictions)
  {
    RunLoopKeepsTracked(ctx, input, c, InitialLoop());
  }

  /** Following records the exchange exactly when there is a reply and the turn is not yet
      following predictions. */
  lemma FollowHistory(ctx: TurnContext, input: Option<string>, c: Conversation, l: LoopState, node: Decision, selection: Selection)
    ensures Follow(ctx, input, c, l, node, selection).0.history ==
      if input.Some? && !l.predicting then AppendExchange(c.history, ctx.agent, node.text, ctx.user, input.value) else c.history
  {
  }

  /** Entering changes the history only by clearing it. */
  lemma EnterHistory(ctx: TurnContext, input: Option<string>, c: Conversation, l: LoopState, chose: bool)
    requires l.maxDepth >= 1
    ensures var h := Enter(ctx, input, c, l, chose).conversation.history; h == [] || h == c.history
  {
  }

  /** One pass leaves the history as it was, clears it, or (only on a pass that is not
      following predictions, with a reply) records one exchange at the current node. */
  lemma IterationHistory(ctx: TurnContext, input: Option<string>, c: Conversation, l: LoopState)
    requires l.maxDepth >= 1
    ensures var h := Iteration(ctx, input, c, l).conversation.history;
      || h == []
      || h == c.history
      || (&& !l.predicting && input.Some? && FindNode(ctx.nodes, c.currentId).Ok?
          && h == AppendExchange(c.history, ctx.agent, FindNode(ctx.nodes, c.currentId).value.text, ctx.user, input.value))
  {
    match FindNode(ctx.nodes, c.currentId)
    case Err(_) =>
    case Ok(node) =>
      if |node.Choices()| > 0 {
        match SelectChoice(ctx, c.history, node, input)
        case Err(_) =>
        case Ok(selection) =>
          var (c', l') := Follow(ctx, input, c, l, node, selection);
          FollowHistory(ctx, input, c, l, node, selection);
          EnterHistory(ctx, input, c', l', selection.next.Some?);
      }
  }

  /** While following predictions the loop records nothing; the history can only be cleared. */
  lemma {:induction false} RunLoopWhilePredicting(ctx: TurnContext, input: Option<string>, c: Conversation, l: LoopState)
    requires l.maxDepth >= 1
    requires l.predicting
    ensures var h := RunLoop(ctx, input, c, l).conversation.history; h == [] || h == c.history
    decreases l.maxDepth
  {
    var st := Iteration(ctx, input, c, l);
    IterationHistory(ctx, input, c, l);
    IterationStep(ctx, input, c, l);
    if st.Next? {
      RunLoopWhilePredicting(ctx, input, st.conversation, st.loop);
    }
  }

  /** A turn records at most one exchange, the reply at the node it starts from; otherwise it
      leaves the history as it was or clears it. */
  lemma HistoryChanges(ctx: TurnContext, input: Option<string>, c: Conversation)
    ensures var h := Turn(ctx, input, c).conversation.history;
      || h == []
      || h == c.history
      || (&& input.Some? && FindNode(ctx.nodes, c.currentId).Ok?
          && h == AppendExchange(c.history, ctx.agent, FindNode(ctx.nodes, c.currentId).value.text, ctx.user, input.value))
  {
    var l := InitialLoop();
    var st := Iteration(ctx, input, c, l);
    TurnKeepsLoopConversation(ctx, input, c);
    IterationHistory(ctx, input, c, l);
    if st.Next? {
      IterationStep(ctx, input, c, l);
      RunLoopWhilePredicting(ctx, input, st.conversation, st.loop);
      assert RunLoop(ctx, input, c, l) == RunLoop(ctx, input, st.conversation, st.loop);
    } else {
      assert RunLoop(ctx, input, c, l).conversation == st.conversation;
    }
  }

  /** The final lookup changes nothing: the turn leaves the conversation where the loop left it. */
  lemma TurnKeepsLoopConversation(ctx: TurnContext, input: Option<string>, c: Conversation)
    ensures Turn(ctx, input, c).conversation == RunLoop(ctx, input, c, InitialLoop()).conversation
  {
  }

  /** The node under the cursor has choices, so a pass will enter a node. */
  predicate HasChoices(ctx: TurnContext, c: Conversation) {
    FindNode(ctx.nodes, c.currentId).Ok? && |FindNode(ctx.nodes, c.currentId).value.Choices()| > 0
  }

  /** The history is empty if the node under the cursor asks for a reset. */
  predicate ResetApplied(ctx: TurnContext, c: Conversation) {
    FindNode(ctx.nodes, c.currentId).Ok? && FindNode(ctx.nodes, c.currentId).value.reset == Some(true) ==> c.history == []
  }

  lemma EnterAppliesReset(ctx: TurnContext, input: Option<string>, c: Conversation, l: LoopState, chose: bool)
    requires l.maxDepth >= 1
    ensures var st := Enter(ctx, input, c, l, chose);
      st.Stop? || st.Next? ==> ResetApplied(ctx, st.conversation)
  {
  }

  lemma IterationAppliesReset(ctx: TurnContext, input: Option<string>, c: Conversation, l: LoopState)
    requires l.maxDepth >= 1
    requires ResetApplied(ctx, c) || HasChoices(ctx, c)
    ensures var st := Iteration(ctx, input, c, l);
      st.Stop? || st.Next? ==> ResetApplied(ctx, st.conversation)
  {
    match FindNode(ctx.nodes, c.currentId)
    case Err(_) =>
    case Ok(node) =>
      if |node.Choices()| > 0 {
        match SelectChoice(ctx, c.history, node, input)
        case Err(_) =>
        case Ok(selection) =>
          var (c', l') := Follow(ctx, input, c, l, node, selection);
          EnterAppliesReset(ctx, input, c', l', selection.next.Some?);
      }
  }

  lemma {:induction false} RunLoopAppliesReset(ctx: TurnContext, input: Option<string>, c: Conversation, l: LoopState)
    requires l.maxDepth >= 1
    requires ResetApplied(ctx, c) || HasChoices(ctx, c)
    ensures var out := RunLoop(ctx, input, c, l);
      out.loop.Ok? ==> ResetApplied(ctx, out.conversation)
    decreases l.maxDepth
  {
    var st := Iteration(ctx, input, c, l);
    IterationAppliesReset(ctx, input, c, l);
    if st.Next? {
      RunLoopAppliesReset(ctx, input, st.conversation, st.loop);
    }
  }

  /** A turn that ends at a node asking for a reset leaves the history empty, provided it
      entered a node at all (the node it starts from has choices) or the history was already
      consistent with the reset. */
  lemma ResetClearsHistory(ctx: TurnContext, input: Option<string>, c: Conversation)
    requires ResetApplied(ctx, c) || HasChoices(ctx, c)
    ensures var out := Turn(ctx, input, c);
      out.result.Ok? && out.result.value.Some? && out.result.value.value.decisionNode.reset == Some(true) ==>
        out.conversation.history == []
  {
    RunLoopAppliesReset(ctx, input, c, InitialLoop());
  }

  /** An entered node naming a tool that is not registered ends the turn with an error. */
  lemma MissingToolAbortsTurn(ctx: TurnContext, input: string, c: Conversation, node: Decision, next: Decision, toolId: string)
    requires FindNode(ctx.nodes, c.currentId) == Ok(node)
    requires |node.Choices()| == 1
    requires FindNode(ctx.nodes, node.Choices()[0].nextId) == Ok(next)
    requires next.tool == Some(toolId)
    requires forall i :: 0 <= i < |ctx.tools| ==> ctx.tools[i].Id() != toolId
    ensures Turn(ctx, Some(input), c).result == Err(ToolNotFound(toolId))
  {
    var l := InitialLoop();
    var selection := Selection(Some(node.Choices()[0]), None);
    var (c', l') := Follow(ctx, Some(input), c, l, node, selection);
    assert FindTool(ctx.tools, toolId).Err?;
    assert Enter(ctx, Some(input), c', l', true).Abort?;
  }

  /** The choice texts are trimmed before matching but the model's answer is not: " Yes "
      is selected by "Yes" and by nothing with surrounding blanks. */
  lemma AnswerIsMatchedUntrimmed()
    ensures MatchChoice([Choice(" Yes ", "a"), Choice("No", "b")], "Yes") == Some(Choice(" Yes ", "a"))
    ensures MatchChoice([Choice(" Yes ", "a"), Choice("No", "b")], " Yes") == None
  {
    var choices := [Choice(" Yes ", "a"), Choice("No", "b")];
    assert MatchChoice(choices, "Yes") == Some(choices[0]) by {
      PaddedYesTrims();
      assert FirstExactMatch(choices, "Yes", 0);
      MatchChoiceOfFirst(choices, "Yes", 0);
    }
    assert MatchChoice(choices, " Yes") == None by {
      PaddedYesTrims();
      PlainNoTrims();
      assert Trim(choices[0].text) != " Yes" && Trim(choices[1].text) != " Yes";
    }
  }

  lemma PlainNoTrims()
    ensures Trim("No") == "No"
  {
    TrimKeepsUnpadded("No");
  }

  lemma PaddedYesTrims()
    ensures Trim(" Yes ") == "Yes"
  {
    var s := " Yes ";
    assert s[1..4] == "Yes" by {
      assert s[1] == 'Y' && s[2] == 'e' && s[3] == 's';
    }
    assert TrimmedAt(s, "Yes", 1);
    TrimIsMaximalStrip(s, "Yes", 1);
  }

  /** The first node with a given id is found: a node is found by its own id when no earlier
      node shares it. */
  lemma FindNodeAt(nodes: seq<Decision>, i: nat)
    requires i < |nodes|
    requires forall j :: 0 <= j < i ==> nodes[j].id != nodes[i].id
    ensures FindNode(nodes, nodes[i].id) == Ok(nodes[i])
  {
  }

  /** A concrete graph: "start" has the single choice "Book" to "x", whose signal tool
      answers "Beep!"; "x" has the single choice "Done" to the terminal node "y". */
  const BookingStart := Decision("start", "Hello?", None, None, None, None, Some([Choice("Book", "x")]))
  const BookingX := Decision("x", "Booking", None, Some("signal_book"), None, None, Some([Choice("Done", "y")]))
  const BookingY := Decision("y", "Bye", None, None, None, None, None)
  const BookingTool := SignalTool(Signal("signal_book", "Book", "Books a table", "Beep!"))
  const Beep := Some(ToolResponse("signal_book", "Beep!"))
  const BookingHistory := "- Agent: Hello?\n  - User: book it"

  function BookingContext(model: string -> Result<InferenceResult, ModelError>, template: Templates.DecisionPromptTemplate): TurnContext {
    TurnContext(model, [BookingStart, BookingX, BookingY], template, [BookingTool], DefaultAgent, DefaultUser)
  }

  lemma BookingLookups(ctx: TurnContext)
    requires ctx.nodes == [BookingStart, BookingX, BookingY] && ctx.tools == [BookingTool]
    ensures FindNode(ctx.nodes, "start") == Ok(BookingStart)
    ensures FindNode(ctx.nodes, "x") == Ok(BookingX)
    ensures FindNode(ctx.nodes, "y") == Ok(BookingY)
    ensures FindTool(ctx.tools, "signal_book") == Ok(BookingTool)
  {
    FindNodeAt(ctx.nodes, 0);
    FindNodeAt(ctx.nodes, 1);
    FindNodeAt(ctx.nodes, 2);
  }

  /** First pass: the only choice at "start" is taken, the exchange recorded, and "x" is
      entered, running its signal tool. */
  lemma BookingFirstPass(ctx: TurnContext)
    requires ctx.nodes == [BookingStart, BookingX, BookingY] && ctx.tools == [BookingTool]
    requires ctx.agent == DefaultAgent && ctx.user == DefaultUser
    ensures Iteration(ctx, Some("book it"), Conversation("", StartId), InitialLoop()) ==
      Next(Conversation(BookingHistory, "x"), LoopState(true, Beep, None, [Prediction("Book", "x", None)], 4))
  {
    var c := Conversation("", StartId);
    var l := InitialLoop();
    var selection := Selection(Some(Choice("Book", "x")), None);
    var followed := LoopState(true, None, None, [Prediction("Book", "x", None)], 5);
    BookingLookups(ctx);
    BookingExchange();
    assert SelectChoice(ctx, "", BookingStart, Some("book it")) == Ok(selection);
    assert Follow(ctx, Some("book it"), c, l, BookingStart, selection).0 == Conversation(BookingHistory, "x");
    assert Follow(ctx, Some("book it"), c, l, BookingStart, selection).1 == followed;
    assert RunNodeTool(ctx.tools, BookingX, Some("book it"), None) == Ok(Beep);
  }

  lemma BookingExchange()
    ensures AppendExchange("", DefaultAgent, "Hello?", DefaultUser, "book it") == BookingHistory
  {
    BookingAgentLine();
    BookingUserLine();
    BookingLinesJoined();
    var agentLine := "- " + DefaultAgent + ": " + "Hello?";
    var userLine := "\n  - " + DefaultUser + ": " + "book it";
    assert AppendExchange("", DefaultAgent, "Hello?", DefaultUser, "book it") == agentLine + userLine;
  }

  /** The literal lines of the booking exchange, each stated apart so that no single proof
      has to unfold every concatenation at once. */
  lemma BookingAgentLine()
    ensures "- " + DefaultAgent + ": " + "Hello?" == "- Agent: Hello?"
  {
  }

  lemma BookingUserLine()
    ensures "\n  - " + DefaultUser + ": " + "book it" == "\n  - User: book it"
  {
  }

  lemma BookingLinesJoined()
    ensures "- Agent: Hello?" + "\n  - User: book it" == BookingHistory
  {
  }

  /** Second pass: still predicting, the only choice at "x" is taken without recording, and
      the prediction carries the signal. */
  lemma BookingSecondPass(ctx: TurnContext)
    requires ctx.nodes == [BookingStart, BookingX, BookingY] && ctx.tools == [BookingTool]
    ensures Iteration(ctx, Some("book it"), Conversation(BookingHistory, "x"), LoopState(true, Beep, None, [Prediction("Book", "x", None)], 4)) ==
      Next(Conversation(BookingHistory, "y"), LoopState(true, Beep, None, [Prediction("Book", "x", None), Prediction("Done", "y", Beep)], 3))
  {
    BookingLookups(ctx);
  }

  /** With a reply the booking turn records one exchange, chains through both edges without
      the model, and attaches the signal to the prediction made after the tool ran. */
  lemma SignalChainScenario(model: string -> Result<InferenceResult, ModelError>, template: Templates.DecisionPromptTemplate)
    ensures Turn(BookingContext(model, template), Some("book it"), Conversation("", StartId)) ==
      TurnOutcome(
        Conversation(BookingHistory, "y"),
        Ok(Some(DecisionResult(Some("book it"), None, None, "y", BookingY,
                               [Prediction("Book", "x", None), Prediction("Done", "y", Beep)], Beep))))
  {
    var ctx := BookingContext(model, template);
    var input := Some("book it");
    var l1 := LoopState(true, Beep, None, [Prediction("Book", "x", None)], 4);
    var l2 := LoopState(true, Beep, None, [Prediction("Book", "x", None), Prediction("Done", "y", Beep)], 3);
    var c2 := Conversation(BookingHistory, "y");
    BookingLookups(ctx);
    BookingFirstPass(ctx);
    BookingSecondPass(ctx);
    TerminalNodeEndsTurn(ctx, input, c2, BookingY);
    assert Iteration(ctx, input, c2, l2) == Stop(c2, l2);
    assert RunLoop(ctx, input, Conversation(BookingHistory, "x"), l1) == LoopOutcome(c2, Ok(l2));
  }

  /** A graph where the model must choose: "start" offers "yes" to "a" and "no" to "b", and
      "a" is terminal. */
  const HiStart := Decision("start", "Hi", None, None, None, None, Some([Choice("yes", "a"), Choice("no", "b")]))
  const HiA := Decision("a", "Great", None, None, None, None, Some([]))

  function AnswersYes(prompt: string): Result<InferenceResult, ModelError> {
    Ok(InferenceResult("yes"))
  }

  lemma LowerYesTrims()
    ensures Trim("yes") == "yes"
  {
    TrimKeepsUnpadded("yes");
  }

  /** When the model answers "yes", the first pass records the exchange, reports the prompt
      with the answer, and follows "yes" to "a". */
  lemma PredictedFirstPass(ctx: TurnContext, history: string)
    requires ctx.nodes == [HiStart, HiA] && ctx.model == AnswersYes
    ensures
      var prompt := PredictionPrompt(ctx, history, HiStart, "yes") + "yes";
      Iteration(ctx, Some("yes"), Conversation(history, StartId), InitialLoop()) ==
        Next(Conversation(AppendExchange(history, ctx.agent, "Hi", ctx.user, "yes"), "a"),
             LoopState(true, None, Some(prompt), [Prediction("yes", "a", None)], 4))
  {
    var prompt := PredictionPrompt(ctx, history, HiStart, "yes") + "yes";
    var c1 := Conversation(AppendExchange(history, ctx.agent, "Hi", ctx.user, "yes"), "a");
    var l1 := LoopState(true, None, Some(prompt), [Prediction("yes", "a", None)], MaxDepth);
    FindNodeAt(ctx.nodes, 0);
    LowerYesTrims();
    MatchFollowsChoice(ctx, "yes", Conversation(history, StartId), HiStart, InferenceResult("yes"), 0);
    assert Enter(ctx, Some("yes"), c1, l1, true) == Next(c1, l1.(maxDepth := 4)) by {
      FindNodeAt(ctx.nodes, 1);
    }
  }

  /** The model-driven turn: with the reply "yes" and a model answering "yes", the turn takes
      the edge to "a", records it as the one prediction, and stops there because "a" is
      terminal. */
  lemma PredictedChoiceScenario(ctx: TurnContext, history: string)
    requires ctx.nodes == [HiStart, HiA] && ctx.model == AnswersYes
    ensures
      var prompt := PredictionPrompt(ctx, history, HiStart, "yes") + "yes";
      Turn(ctx, Some("yes"), Conversation(history, StartId)) ==
        TurnOutcome(
          Conversation(AppendExchange(history, ctx.agent, "Hi", ctx.user, "yes"), "a"),
          Ok(Some(DecisionResult(Some("yes"), Some(prompt), None, "a", HiA, [Prediction("yes", "a", None)], None))))
  {
    var prompt := PredictionPrompt(ctx, history, HiStart, "yes") + "yes";
    var c1 := Conversation(AppendExchange(history, ctx.agent, "Hi", ctx.user, "yes"), "a");
    var l1 := LoopState(true, None, Some(prompt), [Prediction("yes", "a", None)], 4);
    var c0 := Conversation(history, StartId);
    assert RunLoop(ctx, Some("yes"), c0, InitialLoop()) == RunLoop(ctx, Some("yes"), c1, l1) by {
      PredictedFirstPass(ctx, history);
    }
    assert RunLoop(ctx, Some("yes"), c1, l1) == LoopOutcome(c1, Ok(l1)) by {
      FindNodeAt(ctx.nodes, 1);
      assert Iteration(ctx, Some("yes"), c1, l1) == Stop(c1, l1);
    }
    assert Finish(ctx, Some("yes"), c1, l1) ==
      TurnOutcome(c1, Ok(Some(DecisionResult(Some("yes"), Some(prompt), None, "a", HiA, [Prediction("yes", "a", None)], None)))) by {
      FindNodeAt(ctx.nodes, 1);
    }
  }
}
