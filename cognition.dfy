/** The shapes shared across the crate: the crate's single error type, the language model's
    result and error, and a tool's response. They carry data only. */
module Cognition {

  /** The crate's error: an opaque descriptive message. */
  datatype CognitionError = CognitionError(message: string)

  /** The error a language-model backend reports; it displays as its message. */
  datatype ModelError = ModelError(message: string)

  /** The generated text of one completion call. */
  datatype InferenceResult = InferenceResult(text: string)

  /** What a tool hands back: the tool's id and its textual response. */
  datatype ToolResponse = ToolResponse(id: string, response: string)
}
