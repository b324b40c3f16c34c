/** Tools a decision node can name. The crate's tool interface (id, name, description, run)
    is a closed union here: the deterministic `Signal` tool, and any other tool as an opaque
    run function whose behaviour (network lookups) lies outside the model. */
module Tools {
  import opened Wrappers
  import opened Cognition

  /** The signal tool: answers every input with the same fixed signal text. */
  datatype Signal = Signal(id: string, name: string, description: string, signal: string) {

    /** `Signal::run`: succeeds with a response carrying the tool's id and its signal. */
    function Run(input: string): (r: Result<Option<ToolResponse>, CognitionError>)
      ensures r.Ok? && r.value.Some?
      ensures r.value.value.id == id && r.value.value.response == signal
    {
      Ok(Some(ToolResponse(id, signal)))
    }
  }

  /** The input plays no part in the signal tool's answer. */
  lemma SignalIgnoresInput(s: Signal, a: string, b: string)
    ensures s.Run(a) == s.Run(b)
  {
  }

  datatype Tool =
    | SignalTool(signal: Signal)
    | ExternalTool(id: string, name: string, description: string,
                   run: string -> Result<Option<ToolResponse>, CognitionError>)
  {
    function Id(): string {
      match this
      case SignalTool(s) => s.id
      case ExternalTool(id, _, _, _) => id
    }

    function Name(): string {
      match this
      case SignalTool(s) => s.name
      case ExternalTool(_, name, _, _) => name
    }

    function Description(): string {
      match this
      case SignalTool(s) => s.description
      case ExternalTool(_, _, description, _) => description
    }

    function Run(input: string): Result<Option<ToolResponse>, CognitionError> {
      match this
      case SignalTool(s) => s.Run(input)
      case ExternalTool(_, _, _, run) => run(input)
    }
  }

  /** The identifiers of the registered tools, in registration order. */
  function ToolIds(tools: seq<Tool>): (ids: seq<string>)
    ensures |ids| == |tools|
    ensures forall i :: 0 <= i < |tools| ==> ids[i] == tools[i].Id()
  {
    seq(|tools|, i requires 0 <= i < |tools| => tools[i].Id())
  }

  /** As a tool, the signal tool reports its own fields and answers with them. */
  lemma SignalToolReportsItsFields(s: Signal, input: string)
    ensures SignalTool(s).Id() == s.id
    ensures SignalTool(s).Name() == s.name
    ensures SignalTool(s).Description() == s.description
    ensures SignalTool(s).Run(input) == Ok(Some(ToolResponse(s.id, s.signal)))
  {
  }
}
