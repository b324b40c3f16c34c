/** The dialogue decision engine. A session walks a read-only graph of decision nodes; one
    call of `RunDecision` is a turn: with the user's reply it picks an outgoing choice (the
    only one, or the one whose trimmed text the language model names), records the exchange
    in the conversation history, follows the edge, runs the entered node's tool, and keeps
    following single or predicted choices for at most five hops.

    The turn is specified by the pure functions `Iteration` (one pass of the loop),
    `RunLoop` (the loop) and `Turn` (the loop and the final result); `RunDecision` is proved
    to compute exactly `Turn`, and the lemmas below state what `Turn` guarantees. */
module Engine {
  import opened Wrappers
  import opened Strings
  import opened Cognition
  import opened Templates
  import opened Tools

  /** A labelled edge: its text is both what is shown and what the model must name. */
  datatype Choice = Choice(text: string, nextId: string)

  /** A node of the dialogue graph. `predictedText` is loaded but never read. */
  datatype Decision = Decision(
    id: string,
    text: string,
    predictedText: Option<string>,
    tool: Option<string>,
    predict: Option<bool>,
    reset: Option<bool>,
    choices: Option<seq<Choice>>)
  {
    /** `Decision::choices`: an absent list is an empty one. */
    function Choices(): seq<Choice> {
      if choices.Some? then choices.value else []
    }
  }

  /** One auto-followed edge: the choice's text, the node it led to, and the tool response
      held when it was taken. */
  datatype Prediction = Prediction(choice: string, id: string, toolResponse: Option<ToolResponse>)

  /** What a turn hands back to its caller. `choice` is never set. */
  datatype DecisionResult = DecisionResult(
    userInput: Option<string>,
    decisionPrompt: Option<string>,
    choice: Option<string>,
    currentId: string,
    decisionNode: Decision,
    predictions: seq<Prediction>,
    toolResponse: Option<ToolResponse>)

  const StartId := "start"
  const DefaultAgent := "Agent"
  const DefaultUser := "User"
  /** The most nodes one turn passes through. */
  const MaxDepth := 5
  /** What separates the candidate choice texts in the prediction prompt. */
  const ChoiceSeparator := "\n  - "

  function NodeNotFound(id: string): CognitionError {
    CognitionError("Decision node with ID '" + id + "' not found")
  }

  function ToolNotFound(id: string): CognitionError {
    CognitionError("Could not find tool: " + id)
  }

  function GenerateFailed(e: ModelError): CognitionError {
    CognitionError("Failed to generate choice: " + e.message)
  }

  function NodeIds(nodes: seq<Decision>): (ids: seq<string>)
    ensures |ids| == |nodes|
    ensures forall i :: 0 <= i < |nodes| ==> ids[i] == nodes[i].id
  {
    seq(|nodes|, i requires 0 <= i < |nodes| => nodes[i].id)
  }

  /** The graph lookup: the first node, in load order, with the given id. */
  function FindNode(nodes: seq<Decision>, id: string): (r: Result<Decision, CognitionError>)
    ensures r.Ok? ==> exists i :: 0 <= i < |nodes| && nodes[i] == r.value && r.value.id == id &&
                                  forall j :: 0 <= j < i ==> nodes[j].id != id
    ensures r.Err? ==> r.error == NodeNotFound(id) && forall j :: 0 <= j < |nodes| ==> nodes[j].id != id
  {
    match Position(NodeIds(nodes), id)
    case Some(i) => Ok(nodes[i])
    case None => Err(NodeNotFound(id))
  }

  /** The tool lookup: the first registered tool with the given id. */
  function FindTool(tools: seq<Tool>, id: string): (r: Result<Tool, CognitionError>)
    ensures r.Ok? ==> exists i :: 0 <= i < |tools| && tools[i] == r.value && r.value.Id() == id &&
                                  forall j :: 0 <= j < i ==> tools[j].Id() != id
    ensures r.Err? ==> r.error == ToolNotFound(id) && forall j :: 0 <= j < |tools| ==> tools[j].Id() != id
  {
    match Position(ToolIds(tools), id)
    case Some(i) => Ok(tools[i])
    case None => Err(ToolNotFound(id))
  }

  /** The choice texts as the model is shown them and as its answer is matched: trimmed. */
  function ChoiceTexts(choices: seq<Choice>): (texts: seq<string>)
    ensures |texts| == |choices|
    ensures forall i :: 0 <= i < |choices| ==> texts[i] == Trim(choices[i].text)
  {
    seq(|choices|, i requires 0 <= i < |choices| => Trim(choices[i].text))
  }

  /** The history grows by one exchange: the node's text said by the agent, then the user's reply. */
  function AppendExchange(history: string, agent: string, nodeText: string, user: string, input: string): string {
    (if |history| > 0 then history + "\n  " else history)
      + "- " + agent + ": " + nodeText
      + "\n  - " + user + ": " + input
  }

  /** Everything a turn reads but does not change: the language model, the graph, the
      template, the registered tools and the two speaker names. */
  datatype TurnContext = TurnContext(
    model: string -> Result<InferenceResult, ModelError>,
    nodes: seq<Decision>,
    template: DecisionPromptTemplate,
    tools: seq<Tool>,
    agent: string,
    user: string)

  /** What a turn changes in the session: the history and the cursor into the graph. */
  datatype Conversation = Conversation(history: string, currentId: string)

  /** The turn's local variables between two passes of its loop. */
  datatype LoopState = LoopState(
    predicting: bool,
    toolResponse: Option<ToolResponse>,
    decisionPrompt: Option<string>,
    predictions: seq<Prediction>,
    maxDepth: nat)

  function InitialLoop(): LoopState {
    LoopState(false, None, None, [], MaxDepth)
  }

  /** The outcome of choosing: the chosen edge, if any, and the prediction prompt with the
      model's answer appended, when the model was asked. */
  datatype Selection = Selection(next: Option<Choice>, prompt: Option<string>)

  /** The prompt the model is asked with at a node with several choices. */
  function PredictionPrompt(ctx: TurnContext, history: string, node: Decision, input: string): string {
    ctx.template.Format(history, node.text, Join(ChoiceTexts(node.Choices()), ChoiceSeparator), input)
  }

  /** Picking the next choice at a node that has some: nothing without user input; the only
      choice without asking the model; otherwise the choice whose trimmed text is exactly
      the model's answer, if there is one (see `MatchChoice`). */
  function SelectChoice(ctx: TurnContext, history: string, node: Decision, input: Option<string>): (r: Result<Selection, CognitionError>)
    requires |node.Choices()| > 0
    ensures input.None? ==> r == Ok(Selection(None, None))
    ensures input.Some? && |node.Choices()| == 1 ==> r == Ok(Selection(Some(node.Choices()[0]), None))
    ensures input.Some? && |node.Choices()| >= 2 ==>
      var prompt := PredictionPrompt(ctx, history, node, input.value);
      match ctx.model(prompt)
      case Err(e) => r == Err(GenerateFailed(e))
      case Ok(answer) => r == Ok(Selection(MatchChoice(node.Choices(), answer.text), Some(prompt + answer.text)))
  {
    var choices := node.Choices();
    if input.None? then Ok(Selection(None, None))
    else if |choices| == 1 then Ok(Selection(Some(choices[0]), None))
    else
      var prompt := PredictionPrompt(ctx, history, node, input.value);
      match ctx.model(prompt)
      case Err(e) => Err(GenerateFailed(e))
      case Ok(response) => Ok(Selection(MatchChoice(choices, response.text), Some(prompt + response.text)))
  }

  /** The first choice, in list order, whose trimmed text is exactly `answer`. */
  predicate FirstExactMatch(choices: seq<Choice>, answer: string, i: int) {
    && 0 <= i < |choices|
    && Trim(choices[i].text) == answer
    && forall j :: 0 <= j < i ==> Trim(choices[j].text) != answer
  }

  /** The choice selected by the model's answer, untrimmed: the first whose trimmed text
      equals it, and none exactly when no trimmed text equals it. */
  function MatchChoice(choices: seq<Choice>, answer: string): (r: Option<Choice>)
    ensures r.None? <==> forall i :: 0 <= i < |choices| ==> Trim(choices[i].text) != answer
    ensures r.Some? ==> exists i :: FirstExactMatch(choices, answer, i) && r.value == choices[i]
  {
    var index := Position(ChoiceTexts(choices), answer);
    if index.Some? then
      assert FirstExactMatch(choices, answer, index.value);
      Some(choices[index.value])
    else None
  }

  /** Running the entered node's tool: only with user input and only when the node names one.
      Otherwise the previous response is kept. */
  function RunNodeTool(tools: seq<Tool>, node: Decision, input: Option<string>, previous: Option<ToolResponse>): (r: Result<Option<ToolResponse>, CognitionError>)
    ensures input.None? || node.tool.None? ==> r == Ok(previous)
    ensures input.Some? && node.tool.Some? ==>
      match FindTool(tools, node.tool.value)
      case Err(e) => r == Err(ToolNotFound(node.tool.value))
      case Ok(tool) => r == tool.Run(input.value)
  {
    if input.Some? && node.tool.Some? then
      match FindTool(tools, node.tool.value)
      case Err(e) => Err(e)
      case Ok(tool) => tool.Run(input.value)
    else Ok(previous)
  }

  /** How one pass of the loop ends: the loop stops, goes on, or the turn fails. */
  datatype Step =
    | Stop(conversation: Conversation, loop: LoopState)
    | Next(conversation: Conversation, loop: LoopState)
    | Abort(conversation: Conversation, error: CognitionError)

  /** The first half of a pass, once a choice has been selected at `node`: the exchange is
      recorded in the history when the user replied and the turn is not already following
      predictions, and a chosen edge is recorded as a prediction and followed. */
  function Follow(ctx: TurnContext, input: Option<string>, c: Conversation, l: LoopState, node: Decision, selection: Selection): (Conversation, LoopState) {
    var history := if input.Some? && !l.predicting then AppendExchange(c.history, ctx.agent, node.text, ctx.user, input.value) else c.history;
    var decisionPrompt := if selection.prompt.Some? then selection.prompt else l.decisionPrompt;
    match selection.next
    case None =>
      (Conversation(history, c.currentId), l.(decisionPrompt := decisionPrompt))
    case Some(taken) =>
      (Conversation(history, taken.nextId),
       l.(decisionPrompt := decisionPrompt, predicting := true,
          predictions := l.predictions + [Prediction(taken.text, taken.nextId, l.toolResponse)]))
  }

  /** The second half of a pass: the node the cursor now names is entered. Its `reset` clears
      the history, its `predict: false` or the lack of a chosen edge ends the chaining, its
      tool runs on the user's reply, and one unit of depth is spent. */
  function Enter(ctx: TurnContext, input: Option<string>, c: Conversation, l: LoopState, chose: bool): (st: Step)
    requires l.maxDepth >= 1
    ensures st.Next? ==> st.loop.maxDepth == l.maxDepth - 1 >= 1
  {
    match FindNode(ctx.nodes, c.currentId)
    case Err(e) => Abort(c, e)
    case Ok(entered) =>
      var c := if entered.reset == Some(true) then c.(history := []) else c;
      var predicting := l.predicting && entered.predict != Some(false) && chose;
      match RunNodeTool(ctx.tools, entered, input, l.toolResponse)
      case Err(e) => Abort(c, e)
      case Ok(toolResponse) =>
        var next := l.(predicting := predicting, toolResponse := toolResponse, maxDepth := l.maxDepth - 1);
        if !predicting || next.maxDepth == 0 then Stop(c, next) else Next(c, next)
  }

  /** One pass of the turn's loop. */
  function Iteration(ctx: TurnContext, input: Option<string>, c: Conversation, l: LoopState): (st: Step)
    requires l.maxDepth >= 1
    ensures st.Next? ==> st.loop.maxDepth == l.maxDepth - 1 >= 1
  {
    match FindNode(ctx.nodes, c.currentId)
    case Err(e) => Abort(c, e)
    case Ok(node) =>
      if |node.Choices()| == 0 then Stop(c, l)
      else
        match SelectChoice(ctx, c.history, node, input)
        case Err(e) => Abort(c, e)
        case Ok(selection) =>
          var (c', l') := Follow(ctx, input, c, l, node, selection);
          Enter(ctx, input, c', l', selection.next.Some?)
  }

  /** The conversation after the loop, and either the loop's final variables or the error it stopped on. */
  datatype LoopOutcome = LoopOutcome(conversation: Conversation, loop: Result<LoopState, CognitionError>)

  /** The turn's loop: passes until one stops or fails; each pass spends one unit of depth. */
  function RunLoop(ctx: TurnContext, input: Option<string>, c: Conversation, l: LoopState): LoopOutcome
    requires l.maxDepth >= 1
    decreases l.maxDepth
  {
    match Iteration(ctx, input, c, l)
    case Abort(c', e) => LoopOutcome(c', Err(e))
    case Stop(c', l') => LoopOutcome(c', Ok(l'))
    case Next(c', l') => RunLoop(ctx, input, c', l')
  }

  lemma RunLoopNext(ctx: TurnContext, input: Option<string>, c: Conversation, l: LoopState)
    requires l.maxDepth >= 1
    requires Iteration(ctx, input, c, l).Next?
    ensures RunLoop(ctx, input, c, l) == RunLoop(ctx, input, Iteration(ctx, input, c, l).conversation, Iteration(ctx, input, c, l).loop)
  {
  }

  /** The conversation after the turn and what the turn returns. */
  datatype TurnOutcome = TurnOutcome(conversation: Conversation, result: Result<Option<DecisionResult>, CognitionError>)

  /** After the loop: the node under the cursor must exist; it is reported with the
      loop's prompt, predictions and tool response. */
  function Finish(ctx: TurnContext, input: Option<string>, c: Conversation, l: LoopState): TurnOutcome {
    match FindNode(ctx.nodes, c.currentId)
    case Err(e) => TurnOutcome(c, Err(e))
    case Ok(node) =>
      TurnOutcome(c, Ok(Some(DecisionResult(input, l.decisionPrompt, None, c.currentId, node, l.predictions, l.toolResponse))))
  }

  /** `run_decision`: the loop, then the result built around the node now current. */
  function Turn(ctx: TurnContext, input: Option<string>, c: Conversation): TurnOutcome {
    var out := RunLoop(ctx, input, c, InitialLoop());
    match out.loop
    case Err(e) => TurnOutcome(out.conversation, Err(e))
    case Ok(l) => Finish(ctx, input, out.conversation, l)
  }

  /** A pass that fails ends the turn with its error. */
  lemma TurnAborts(ctx: TurnContext, input: Option<string>, start: Conversation, c: Conversation, l: LoopState,
                   after: Conversation, e: CognitionError)
    requires l.maxDepth >= 1
    requires RunLoop(ctx, input, c, l) == RunLoop(ctx, input, start, InitialLoop())
    requires Iteration(ctx, input, c, l) == Abort(after, e)
    ensures Turn(ctx, input, start) == TurnOutcome(after, Err(e))
  {
  }

  /** A pass that stops ends the loop; the turn then finishes from where it stopped. */
  lemma TurnStops(ctx: TurnContext, input: Option<string>, start: Conversation, c: Conversation, l: LoopState,
                  after: Conversation, lAfter: LoopState)
    requires l.maxDepth >= 1
    requires RunLoop(ctx, input, c, l) == RunLoop(ctx, input, start, InitialLoop())
    requires Iteration(ctx, input, c, l) == Stop(after, lAfter)
    ensures Turn(ctx, input, start) == Finish(ctx, input, after, lAfter)
  {
  }

  /** The session: the model, the graph, the template and the tools, and the two pieces of
      state a turn changes, the history and the current node id. */
  class DecisionState {
    const model: string -> Result<InferenceResult, ModelError>
    const decisionNodes: seq<Decision>
    const decisionPromptTemplate: DecisionPromptTemplate
    var tools: seq<Tool>
    var agent: string
    var user: string
    var history: string
    var currentId: string

    /** `DecisionState::new`, with the language model passed in. */
    constructor (model: string -> Result<InferenceResult, ModelError>, decisionPromptTemplate: DecisionPromptTemplate, decisionNodes: seq<Decision>)
      ensures this.model == model
      ensures this.decisionPromptTemplate == decisionPromptTemplate && this.decisionNodes == decisionNodes
      ensures tools == [] && agent == DefaultAgent && user == DefaultUser
      ensures history == [] && currentId == StartId
    {
      this.model := model;
      this.decisionNodes := decisionNodes;
      this.decisionPromptTemplate := decisionPromptTemplate;
      tools := [];
      agent := DefaultAgent;
      user := DefaultUser;
      history := [];
      currentId := StartId;
    }

    /** `add_tool`: registers one more tool, after the others. */
    method AddTool(tool: Tool)
      modifies this`tools
      ensures tools == old(tools) + [tool]
    {
      tools := tools + [tool];
    }

    /** `decision_node`: the first node with the given id, or the not-found error. */
    function DecisionNode(id: string): (r: Result<Decision, CognitionError>)
      ensures r.Ok? ==> exists i :: 0 <= i < |decisionNodes| && decisionNodes[i] == r.value && r.value.id == id &&
                                    forall j :: 0 <= j < i ==> decisionNodes[j].id != id
      ensures r.Err? ==> r.error == NodeNotFound(id) && forall j :: 0 <= j < |decisionNodes| ==> decisionNodes[j].id != id
    {
      FindNode(decisionNodes, id)
    }

    /** `current_node`: the node the cursor names. */
    function CurrentNode(): (r: Result<Decision, CognitionError>)
      reads this
      ensures r.Ok? ==> exists i :: 0 <= i < |decisionNodes| && decisionNodes[i] == r.value && r.value.id == currentId &&
                                    forall j :: 0 <= j < i ==> decisionNodes[j].id != currentId
      ensures r.Err? ==> r.error == NodeNotFound(currentId) && forall j :: 0 <= j < |decisionNodes| ==> decisionNodes[j].id != currentId
    {
      DecisionNode(currentId)
    }

    /** Records one exchange in the history: a separator if the history is not empty, then
        the agent's line with the node's text, then the user's line with the reply. */
    method PushExchange(nodeText: string, input: string)
      modifies this`history
      ensures history == AppendExchange(old(history), agent, nodeText, user, input)
    {
      if |history| > 0 {
        history := history + "\n  ";
      }
      history := history + "- " + agent + ": " + nodeText;
      history := history + "\n  - " + user + ": " + input;
    }

    /** Picks the next choice at a node with choices, asking the model when it must. */
    method PredictChoice(decisionNode: Decision, userInput: Option<string>) returns (r: Result<Selection, CognitionError>)
      requires |decisionNode.Choices()| > 0
      ensures r == SelectChoice(Context(), history, decisionNode, userInput)
    {
      var choices := decisionNode.Choices();
      if userInput.None? {
        return Ok(Selection(None, None));
      } else if |choices| == 1 {
        return Ok(Selection(Some(choices[0]), None));
      }
      var choiceTexts := ChoiceTexts(choices);
      var choicesStr := Join(choiceTexts, ChoiceSeparator);
      var prompt := decisionPromptTemplate.Format(history, decisionNode.text, choicesStr, userInput.value);
      var generated := model(prompt);
      if generated.Err? {
        return Err(GenerateFailed(generated.error));
      }
      var response := generated.value.text;
      prompt := prompt + response;
      var index := Position(choiceTexts, response);
      var nextChoice := if index.Some? then Some(choices[index.value]) else None;
      return Ok(Selection(nextChoice, Some(prompt)));
    }

    /** The first half of a pass, once a choice has been selected at `decisionNode`: records
        the exchange unless the turn is already following predictions, keeps the new prompt,
        and follows a chosen edge, recording it as a prediction. */
    method FollowSelection(userInput: Option<string>, l: LoopState, decisionNode: Decision, selection: Selection) returns (followed: LoopState)
      modifies this`history, this`currentId
      ensures (State(), followed) == Follow(old(Context()), userInput, old(State()), l, decisionNode, selection)
    {
      followed := l;
      if selection.prompt.Some? {
        followed := followed.(decisionPrompt := selection.prompt);
      }
      if userInput.Some? && !l.predicting {
        PushExchange(decisionNode.text, userInput.value);
      }
      if selection.next.Some? {
        var taken := selection.next.value;
        followed := followed.(predictions := l.predictions + [Prediction(taken.text, taken.nextId, l.toolResponse)], predicting := true);
        currentId := taken.nextId;
      }
    }

    /** The second half of a pass: enters the node the cursor names, clearing the history on
        `reset`, ending the chaining on `predict: false` or when no edge was taken, running the
        node's tool on the reply, and spending one unit of depth. */
    method EnterCurrentNode(userInput: Option<string>, l: LoopState, chose: bool) returns (st: Step)
      requires l.maxDepth >= 1
      modifies this`history
      ensures st == Enter(old(Context()), userInput, old(State()), l, chose)
      ensures State() == st.conversation
    {
      var entered := DecisionNode(currentId);
      if entered.Err? {
        return Abort(State(), entered.error);
      }
      var enteredNode := entered.value;
      if enteredNode.reset == Some(true) {
        history := [];
      }
      var predictingChoice := l.predicting;
      if enteredNode.predict == Some(false) {
        predictingChoice := false;
      }
      if !chose {
        predictingChoice := false;
      }
      var toolResponse := l.toolResponse;
      if userInput.Some? && enteredNode.tool.Some? {
        var found := FindTool(tools, enteredNode.tool.value);
        if found.Err? {
          return Abort(State(), found.error);
        }
        var ran := found.value.Run(userInput.value);
        if ran.Err? {
          return Abort(State(), ran.error);
        }
        toolResponse := ran.value;
      }
      var next := l.(predicting := predictingChoice, toolResponse := toolResponse, maxDepth := l.maxDepth - 1);
      if !predictingChoice || next.maxDepth == 0 {
        return Stop(State(), next);
      }
      return Next(State(), next);
    }

    function Context(): TurnContext
      reads this
    {
      TurnContext(model, decisionNodes, decisionPromptTemplate, tools, agent, user)
    }

    function State(): Conversation
      reads this
    {
      Conversation(history, currentId)
    }
  }

  /** `run_decision`: one turn. The history and the cursor are updated in place, also on the
      way to an error, exactly as far as the turn got. */
  method RunDecision(userInput: Option<string>, state: DecisionState) returns (r: Result<Option<DecisionResult>, CognitionError>)
    modifies state`history, state`currentId
    ensures TurnOutcome(state.State(), r) == Turn(old(state.Context()), userInput, old(state.State()))
  {
    ghost var ctx := state.Context();
    ghost var start := state.State();
    var predictingChoice := false;
    var toolResponse: Option<ToolResponse> := None;
    var decisionPrompt: Option<string> := None;
    var choice: Option<string> := None;
    var predictions: seq<Prediction> := [];
    var maxDepth: nat := MaxDepth;

    while true
      invariant 1 <= maxDepth <= MaxDepth
      invariant state.Context() == ctx
      invariant RunLoop(ctx, userInput, state.State(), LoopState(predictingChoice, toolResponse, decisionPrompt, predictions, maxDepth))
             == RunLoop(ctx, userInput, start, InitialLoop())
      decreases maxDepth
    {
      ghost var before := state.State();
      ghost var loopBefore := LoopState(predictingChoice, toolResponse, decisionPrompt, predictions, maxDepth);

      var current := state.DecisionNode(state.currentId);
      if current.Err? {
        TurnAborts(ctx, userInput, start, before, loopBefore, state.State(), current.error);
        return Err(current.error);
      }
      var decisionNode := current.value;

      var choices := decisionNode.Choices();
      if |choices| == 0 {
        TurnStops(ctx, userInput, start, before, loopBefore, state.State(), LoopState(predictingChoice, toolResponse, decisionPrompt, predictions, maxDepth));
        break;
      }

      var selected := state.PredictChoice(decisionNode, userInput);
      if selected.Err? {
        TurnAborts(ctx, userInput, start, before, loopBefore, state.State(), selected.error);
        return Err(selected.error);
      }
      var selection := selected.value;
      var followed := state.FollowSelection(userInput, LoopState(predictingChoice, toolResponse, decisionPrompt, predictions, maxDepth), decisionNode, selection);
      assert Iteration(ctx, userInput, before, loopBefore) == Enter(ctx, userInput, state.State(), followed, selection.next.Some?);

      var step := state.EnterCurrentNode(userInput, followed, selection.next.Some?);
      if step.Abort? {
        TurnAborts(ctx, userInput, start, before, loopBefore, state.State(), step.error);
        return Err(step.error);
      }
      predictingChoice, toolResponse, decisionPrompt, predictions, maxDepth :=
        step.loop.predicting, step.loop.toolResponse, step.loop.decisionPrompt, step.loop.predictions, step.loop.maxDepth;
      if step.Stop? {
        TurnStops(ctx, userInput, start, before, loopBefore, state.State(), step.loop);
        break;
      }
      RunLoopNext(ctx, userInput, before, loopBefore);
    }

    var node :- state.CurrentNode();
    r := Ok(Some(DecisionResult(userInput, decisionPrompt, choice, state.currentId, node, predictions, toolResponse)));
  }
}
