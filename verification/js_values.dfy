/**
 * The few JavaScript value rules the request handlers rely on, and the
 * shape of an HTTP reply.
 */
module JsValues {
  import opened Wrappers

  /** `!!s` for an optional string: undefined, null and "" are falsy. */
  predicate Truthy(s: Option<string>)
  {
    s.Some? && s.value != ""
  }

  /** One role-tagged chat message as the chat-completion provider takes it. */
  datatype ChatMessage = ChatMessage(role: string, content: string)

  /** What a route handler's response carries besides its status. */
  datatype Payload =
    | PlainText(text: string)                    // new NextResponse("...")
    | HumanizedJson(text: string)                // NextResponse.json({ text })
    | ChatJson(message: ChatMessage)              // NextResponse.json(choices[0].message)
    | Audio(bytes: seq<bv8>, contentType: string) // new Response(audio, { Content-Type })
    | ErrorJson(statusCode: Option<int>)          // Response.json(error, ...)

  /**
   * The outcome of one POST: a response; an exception the handler did not
   * catch (the framework then answers 500); a handler that returned
   * `undefined` (no response object); or a request that never completes.
   */
  datatype Reply =
    | Respond(status: int, payload: Payload)
    | Threw
    | Unreturned
    | Pending
  {
    predicate HasStatus(code: int) { Respond? && status == code }
  }
}
