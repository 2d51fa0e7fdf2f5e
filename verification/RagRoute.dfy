/**
 * The `POST` handler of the RAG route: validate, answer without context when
 * there are no notes, otherwise embed, rank, keep the best three, and answer
 * from them.
 */
module RagRoute {
  import opened Wrappers
  import opened JsText
  import opened JsValues
  import opened VectorMath
  import opened Ranker
  import opened Http

  /** The request body: a question field and a notes field. */
  datatype RagRequest = RagRequest(question: Field, notes: NotesField)

  const QuestionRequired: Response := Response(400, ErrorBody("Question is required."))

  const NoNotesSystem: string :=
    "You are a helpful assistant. The user did not provide any notes. If you don't have enough information, say so."

  const GroundedSystem: string :=
    "You are a concise and accurate assistant. Answer ONLY using the provided note excerpts. "
    + "If the notes do not contain the answer, respond: \"I couldn't find that in your notes.\" "
    + "Include no fabricated details."

  const NoAnswerFallback: string := "I couldn't generate an answer."
  const NotFoundFallback: string := "I couldn't find that in your notes."

  /** `(body?.question || "").toString().trim()` for a string, null or absent question. */
  function QuestionOf(f: Field): (q: string)
    ensures Bare(q)
    ensures !Truthy(f) ==> q == ""
    ensures f.Str? ==> q == Trim(f.s)
  {
    Trim(Or(f, ""))
  }

  /** The batch sent to the embedding model: the question first, then each note's text. */
  function EmbeddingInputs(question: string, notes: seq<Note>): (inputs: seq<string>)
    ensures |inputs| == |notes| + 1
    ensures inputs[0] == question
    ensures forall i :: 0 <= i < |notes| ==> inputs[i + 1] == NoteText(notes[i])
  {
    [question] + seq(|notes|, i requires 0 <= i < |notes| => NoteText(notes[i]))
  }

  /** One entry of the context block: 1-based label, title or "Untitled", then the raw text. */
  function SourceEntry(i: nat, s: RankedSource): (e: string)
    ensures "Source " + Decimal(i + 1) + " - " <= e
  {
    "Source " + Decimal(i + 1) + " - " + Or(s.title, "Untitled") + "\n" + Raw(s.text)
  }

  /** An entry is its label line, `Source <i+1> - <title or Untitled>`, followed by the raw text. */
  lemma SourceEntryParts(i: nat, s: RankedSource)
    ensures var head := "Source " + Decimal(i + 1) + " - " + Or(s.title, "Untitled") + "\n";
      head <= SourceEntry(i, s) && SourceEntry(i, s)[|head|..] == Raw(s.text)
  {
  }

  function Entries(top: seq<RankedSource>): (es: seq<string>)
    ensures |es| == |top|
  {
    seq(|top|, i requires 0 <= i < |top| => SourceEntry(i, top[i]))
  }

  /** The context block: the entries of the selected sources separated by blank lines. */
  function RenderContext(top: seq<RankedSource>): (c: string)
    ensures c == "" <==> top == []
    ensures top != [] ==> "Source 1 - " <= c
    ensures |top| == 1 ==> c == SourceEntry(0, top[0])
  {
    var es := Entries(top);
    assert top != [] ==> Decimal(1) == "1" && "Source 1 - " <= es[0];
    Join(es, "\n\n")
  }

  /** Each further source adds a blank line and an entry labelled with its own position. */
  lemma RenderContextSnoc(top: seq<RankedSource>, s: RankedSource)
    requires top != []
    ensures RenderContext(top + [s]) == RenderContext(top) + "\n\n" + SourceEntry(|top|, s)
  {
    assert Entries(top + [s]) == Entries(top) + [SourceEntry(|top|, s)];
    JoinSnoc(Entries(top), SourceEntry(|top|, s), "\n\n");
  }

  /** The user message of the grounded call. */
  function UserPrompt(context: string, question: string): (u: string)
    ensures "Here are relevant note excerpts:\n\n" + context <= u
    ensures |u| >= |question| + 21
    ensures u[|u| - |question| - 21..] == "\n\nQuestion: " + question + "\n\nAnswer:"
    ensures |u| == |context| + |question| + 55
  {
    "Here are relevant note excerpts:\n\n" + context + "\n\nQuestion: " + question + "\n\nAnswer:"
  }

  /** The embedding reply fits the notes whenever it is used. */
  predicate EmbedFits(notes: seq<Note>, embedReply: Reply<seq<Vector>>) {
    embedReply.Returned? && notes != [] ==> WellShaped(embedReply.value, |notes| + 1)
  }

  /** The no-notes branch: one ungrounded chat call with the question as the user message. */
  function AnswerWithoutNotes(question: string, chatReply: Reply<Option<string>>): (o: Outcome)
    ensures o.calls == [Chat(NoNotesSystem, question)]
    ensures chatReply.Threw? <==> o.response == ServerError
    ensures chatReply.Returned? ==>
      o.response == Response(200, AnswerBody(CompletionText(chatReply.value, NoAnswerFallback), []))
  {
    var calls := [Chat(NoNotesSystem, question)];
    match chatReply
    case Threw => Outcome(calls, ServerError)
    case Returned(content) =>
      Outcome(calls, Response(200, AnswerBody(CompletionText(content, NoAnswerFallback), [])))
  }

  /**
   * The retrieval branch: embed question and notes in one batch, rank the
   * notes, keep the top three, and ask for an answer grounded in them.
   */
  function AnswerFromNotes(question: string, notes: seq<Note>, embedReply: Reply<seq<Vector>>,
                           chatReply: Reply<Option<string>>, sqrt: real -> real): (o: Outcome)
    requires notes != [] && EmbedFits(notes, embedReply) && NonNegativeRoot(sqrt)
    ensures |o.calls| >= 1 && o.calls[0] == Embed(EmbeddingInputs(question, notes))
    ensures embedReply.Threw? ==> o == Outcome([Embed(EmbeddingInputs(question, notes))], ServerError)
    ensures embedReply.Returned? ==>
      var top := TopK(Rank(notes, embedReply.value, sqrt));
      && |o.calls| == 2
      && o.calls[1] == Chat(GroundedSystem, UserPrompt(RenderContext(top), question))
      && RenderContext(top) != ""
      && (chatReply.Threw? <==> o.response == ServerError)
      && (chatReply.Returned? ==>
            o.response == Response(200, AnswerBody(CompletionText(chatReply.value, NotFoundFallback), top)))
  {
    var embedCall := Embed(EmbeddingInputs(question, notes));
    match embedReply
    case Threw => Outcome([embedCall], ServerError)
    case Returned(vectors) =>
      var top := TopK(Rank(notes, vectors, sqrt));
      var chatCall := Chat(GroundedSystem, UserPrompt(RenderContext(top), question));
      match chatReply
      case Threw => Outcome([embedCall, chatCall], ServerError)
      case Returned(content) =>
        Outcome([embedCall, chatCall], Response(200, AnswerBody(CompletionText(content, NotFoundFallback), top)))
  }

  /**
   * `POST /api/rag`. The credential is checked before the body is looked at;
   * a blank question is refused before any model call; a non-array `notes`
   * counts as no notes.
   */
  function Post(apiKey: Option<string>, req: RagRequest, embedReply: Reply<seq<Vector>>,
                chatReply: Reply<Option<string>>, sqrt: real -> real): (o: Outcome)
    requires EmbedFits(NotesOf(req.notes), embedReply) && NonNegativeRoot(sqrt)
    ensures KeyMissing(apiKey) ==> o == Outcome([], MissingKey)
    ensures !KeyMissing(apiKey) && QuestionOf(req.question) == "" ==> o == Outcome([], QuestionRequired)
    ensures o.calls == [] <==> KeyMissing(apiKey) || QuestionOf(req.question) == ""
    ensures !KeyMissing(apiKey) && QuestionOf(req.question) != "" && NotesOf(req.notes) == [] ==>
      o == AnswerWithoutNotes(QuestionOf(req.question), chatReply)
    ensures !KeyMissing(apiKey) && QuestionOf(req.question) != "" && NotesOf(req.notes) != [] ==>
      o == AnswerFromNotes(QuestionOf(req.question), NotesOf(req.notes), embedReply, chatReply, sqrt)
    ensures o.response.status in {200, 400, 500}
    ensures o.response.status == 200 ==> o.response.body.AnswerBody? && o.response.body.answer != ""
    ensures o.response.status == 200 ==> |o.response.body.sources| == Min(K, |NotesOf(req.notes)|)
    ensures o.response.status == 200 ==> SortedDesc(o.response.body.sources)
    ensures o.response == ServerError ==> embedReply.Threw? || chatReply.Threw?
  {
    if KeyMissing(apiKey) then Outcome([], MissingKey)
    else
      var notes := NotesOf(req.notes);
      var question := QuestionOf(req.question);
      if question == "" then Outcome([], QuestionRequired)
      else if notes == [] then AnswerWithoutNotes(question, chatReply)
      else
        var o := AnswerFromNotes(question, notes, embedReply, chatReply, sqrt);
        if embedReply.Threw? then o
        else
          TopKIsBest(Rank(notes, embedReply.value, sqrt));
          o
  }

  /** A `notes` field that is not an array is handled exactly like an empty array. */
  lemma NotArrayIsNoNotes(apiKey: Option<string>, question: Field, embedReply: Reply<seq<Vector>>,
                          chatReply: Reply<Option<string>>, sqrt: real -> real)
    requires NonNegativeRoot(sqrt)
    ensures Post(apiKey, RagRequest(question, NotArray), embedReply, chatReply, sqrt)
         == Post(apiKey, RagRequest(question, Array([])), embedReply, chatReply, sqrt)
  {
  }

  /** With exactly one note, that note (with its own id and score) is the one source returned. */
  lemma SingleNoteIsTheSource(question: string, n: Note, vectors: seq<Vector>,
                              chatReply: Reply<Option<string>>, sqrt: real -> real)
    requires WellShaped(vectors, 2) && NonNegativeRoot(sqrt) && chatReply.Returned?
    ensures AnswerFromNotes(question, [n], Returned(vectors), chatReply, sqrt).response.body.sources
         == [Score(n, vectors[0], vectors[1], sqrt)]
  {
  }

  /**
   * Unlike the embedding inputs, the context block interpolates `text` as it
   * is: a selected source without text, at any position, contributes an entry
   * whose text line is the word `undefined`, and that entry is in the context.
   */
  lemma MissingTextRendersUndefined(top: seq<RankedSource>, i: nat)
    requires i < |top| && top[i].text.Undefined?
    ensures SourceEntry(i, top[i])
         == "Source " + Decimal(i + 1) + " - " + Or(top[i].title, "Untitled") + "\nundefined"
    ensures IsInfix(SourceEntry(i, top[i]), RenderContext(top))
  {
    assert Entries(top)[i] == SourceEntry(i, top[i]);
    JoinContainsParts(Entries(top), i, "\n\n");
  }
}
