/**
 * What a handler hands back and what it asks of the model provider: the
 * response as status plus JSON body, and the list of collaborator calls it
 * issued, in order.
 */
module Http {
  import opened Wrappers
  import opened JsText
  import Json
  import Ranker

  /** The JSON bodies the two routes send. */
  datatype Body =
    | ErrorBody(error: string)
    | AnswerBody(answer: string, sources: seq<Ranker.RankedSource>)
    | QuizBody(quiz: Json.JsonValue)

  datatype Response = Response(status: int, body: Body)

  /** A call into the model provider, with the inputs it was given. */
  datatype Call =
    | Embed(inputs: seq<string>)
    | Chat(system: string, user: string)

  /** The calls a request issued, and the response it produced. */
  datatype Outcome = Outcome(calls: seq<Call>, response: Response)

  const MissingKeyMessage: string := "Missing OPENAI_KEY environment variable on the server."
  const ServerErrorMessage: string := "Server error."

  const MissingKey: Response := Response(500, ErrorBody(MissingKeyMessage))
  const ServerError: Response := Response(500, ErrorBody(ServerErrorMessage))

  /** `!apiKey`: the credential is unset or empty. */
  function KeyMissing(apiKey: Option<string>): (missing: bool)
    ensures !missing <==> apiKey.Some? && |apiKey.value| > 0
  {
    apiKey.None? || apiKey.value == ""
  }

  /**
   * `completion.choices?.[0]?.message?.content?.trim() || fallback`, where
   * `None` stands for a reply without a first choice or without content.
   */
  function CompletionText(content: Option<string>, fallback: string): (r: string)
    ensures content.Some? && !AllSpace(content.value) ==> r == Trim(content.value) && r != ""
    ensures content.None? || AllSpace(content.value) ==> r == fallback
  {
    match content
    case None => fallback
    case Some(c) => if Trim(c) == "" then fallback else Trim(c)
  }
}
