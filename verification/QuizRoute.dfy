/**
 * The `POST` handler of the quiz route: short-circuit on no notes, one chat
 * call over all the notes, and a decode of the reply that never fails.
 */
module QuizRoute {
  import opened Wrappers
  import opened JsText
  import opened JsValues
  import opened Json
  import opened Http

  const QuizSystem: string :=
    "You are a quiz generator. Create a 5-question multiple-choice quiz based on the provided notes. "
    + "Each question should have 4 options (A, B, C, D) and specify the correct answer. "
    + "Format as JSON array of objects with keys: question, options, correct."

  /** Every note rendered as in the embedding inputs, separated by blank lines. */
  function NotesContext(notes: seq<Note>): (c: string)
    ensures |notes| == 1 ==> c == NoteText(notes[0])
    ensures |notes| > 0 ==> NoteText(notes[0]) <= c
  {
    Join(seq(|notes|, i requires 0 <= i < |notes| => NoteText(notes[i])), "\n\n")
  }

  /** Each further note adds a blank line and its own rendering. */
  lemma NotesContextSnoc(notes: seq<Note>, n: Note)
    requires notes != []
    ensures NotesContext(notes + [n]) == NotesContext(notes) + "\n\n" + NoteText(n)
  {
    var render := (ns: seq<Note>) => seq(|ns|, i requires 0 <= i < |ns| => NoteText(ns[i]));
    assert render(notes + [n]) == render(notes) + [NoteText(n)];
    JoinSnoc(render(notes), NoteText(n), "\n\n");
  }

  /** The user message of the quiz call. */
  function UserMessage(notes: seq<Note>): (u: string)
    ensures "Notes:\n" <= u
    ensures u[7..] == NotesContext(notes)
  {
    "Notes:\n" + NotesContext(notes)
  }

  /** `content?.trim() || "{}"`: the text handed to `JSON.parse`. */
  function ResponseText(content: Option<string>): (t: string)
    ensures t != "" && Bare(t)
    ensures content.None? || AllSpace(content.value) ==> t == "{}"
    ensures content.Some? && !AllSpace(content.value) ==> t == Trim(content.value)
  {
    CompletionText(content, "{}")
  }

  /**
   * The inner `try`: `Array.isArray(parsed) ? parsed : (parsed.quiz || [])`,
   * with `[]` when parsing failed or `parsed` is `null` (the property access
   * throws and is caught). A primitive has no `quiz` property.
   */
  function DecodeQuiz(parsed: Option<JsonValue>): (quiz: JsonValue)
    ensures parsed.Some? && parsed.value.JArr? ==> quiz == parsed.value
    ensures (parsed.Some? && parsed.value.JObj? && "quiz" in parsed.value.fields
             && Json.Truthy(parsed.value.fields["quiz"])) ==> quiz == parsed.value.fields["quiz"]
    ensures (parsed.None? || !(parsed.value.JArr? || (parsed.value.JObj? && "quiz" in parsed.value.fields
             && Json.Truthy(parsed.value.fields["quiz"])))) ==> quiz == Empty
    ensures Json.Truthy(quiz)
  {
    match parsed
    case None => Empty
    case Some(v) =>
      match v
      case JArr(_) => v
      case JObj(fields) => if "quiz" in fields && Json.Truthy(fields["quiz"]) then fields["quiz"] else Empty
      case _ => Empty
  }

  /** Both accepted shapes, a bare array and `{quiz: [...]}`, decode to the same list. */
  lemma DecodeAcceptsBothShapes(items: seq<JsonValue>)
    ensures DecodeQuiz(Some(JArr(items))) == JArr(items)
    ensures DecodeQuiz(Some(JObj(map["quiz" := JArr(items)]))) == JArr(items)
  {
  }

  /**
   * The decode does not check the shape: any truthy value under `quiz` that is
   * not a list (`5`, `"x"`, `true`, an object) is passed on as it is.
   */
  lemma DecodeKeepsNonArrayQuiz(fields: map<string, JsonValue>)
    requires "quiz" in fields && Json.Truthy(fields["quiz"]) && !fields["quiz"].JArr?
    ensures DecodeQuiz(Some(JObj(fields))) == fields["quiz"]
    ensures !DecodeQuiz(Some(JObj(fields))).JArr?
  {
  }

  /**
   * `POST /api/quiz`. `parse` stands for `JSON.parse`, `None` for a thrown
   * `SyntaxError`. The credential is checked first; no notes means an empty
   * quiz without a model call; once the chat call returns, the response is
   * 200 whatever the reply was.
   */
  function Post(apiKey: Option<string>, notesField: NotesField, chatReply: Reply<Option<string>>,
                parse: string -> Option<JsonValue>): (o: Outcome)
    ensures KeyMissing(apiKey) ==> o == Outcome([], MissingKey)
    ensures !KeyMissing(apiKey) && NotesOf(notesField) == [] ==> o == Outcome([], Response(200, QuizBody(Empty)))
    ensures !KeyMissing(apiKey) && NotesOf(notesField) != [] ==>
      o.calls == [Chat(QuizSystem, UserMessage(NotesOf(notesField)))]
    ensures !KeyMissing(apiKey) ==> (o.response.status == 200 <==> !chatReply.Threw? || NotesOf(notesField) == [])
    ensures o.response.status != 200 ==> o.response == MissingKey || o.response == ServerError
    ensures !KeyMissing(apiKey) && NotesOf(notesField) != [] && chatReply.Threw? ==> o.response == ServerError
    ensures o.response.status == 200 ==> o.response.body.QuizBody? && Json.Truthy(o.response.body.quiz)
    ensures !KeyMissing(apiKey) && NotesOf(notesField) != [] && chatReply.Returned? ==>
      o.response.body == QuizBody(DecodeQuiz(parse(ResponseText(chatReply.value))))
  {
    if KeyMissing(apiKey) then Outcome([], MissingKey)
    else
      var notes := NotesOf(notesField);
      if notes == [] then Outcome([], Response(200, QuizBody(Empty)))
      else
        var calls := [Chat(QuizSystem, UserMessage(notes))];
        match chatReply
        case Threw => Outcome(calls, ServerError)
        case Returned(content) =>
          Outcome(calls, Response(200, QuizBody(DecodeQuiz(parse(ResponseText(content))))))
  }

  /** A blank or missing completion is parsed as `{}` and yields the empty quiz. */
  lemma BlankCompletionGivesEmptyQuiz(apiKey: Option<string>, notesField: NotesField, content: Option<string>,
                                      parse: string -> Option<JsonValue>)
    requires !KeyMissing(apiKey) && NotesOf(notesField) != []
    requires content.None? || AllSpace(content.value)
    requires parse("{}") == Some(JObj(map[]))
    ensures Post(apiKey, notesField, Returned(content), parse).response == Response(200, QuizBody(Empty))
  {
  }

  /** Output that does not parse still yields 200 with the empty quiz. */
  lemma UnparsableGivesEmptyQuiz(apiKey: Option<string>, notesField: NotesField, content: Option<string>,
                                 parse: string -> Option<JsonValue>)
    requires !KeyMissing(apiKey) && NotesOf(notesField) != []
    requires parse(ResponseText(content)).None?
    ensures Post(apiKey, notesField, Returned(content), parse).response == Response(200, QuizBody(Empty))
  {
  }
}
