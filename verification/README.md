# RAG Notes request handlers in Dafny

This project models the two server routes of the RAG Notes app. It covers the
retrieval-augmented answering route (`POST /api/rag`) and the quiz route
(`POST /api/quiz`). Each route is a pure function. Its inputs are:

- the credential, as `Option<string>`;
- the request body's fields;
- what the model provider's embedding and chat calls returned, as parameters;
- for the quiz route, `JSON.parse`, as a function `string -> Option<JsonValue>`;
- for the RAG route, the square root, as a function `real -> real`. All that
  is known of it is that it is non-negative on non-negative reals. The
  similarity itself only needs this at the two squared norms it takes roots of.

Each route returns an `Outcome`. An `Outcome` holds the list of provider calls
the request issued, with their inputs, and the `Response(status, body)`.
Because the calls are part of the result, "no model call is made" is a
statement about the result.

Modules:

- `JsText`: `trim`, the decimal rendering of the 1-based source number, and
  `Array.prototype.join`.
- `JsValues`: string-valued request fields (`Undefined | Null | Str`), their
  truthiness, notes, and the `Title: …` rendering of a note.
- `Json`: parsed JSON values and their truthiness.
- `VectorMath`: `cosineSim` over exact reals, as a function and as the
  accumulating loop.
- `Ranker`: scoring notes, sorting by similarity, and the top-3 slice.
- `Http`: response bodies, provider calls, fixed error responses, and the
  completion-text fallback.
- `RagRoute` and `QuizRoute`: the two `POST` handlers.

The sort is specified by its contract only. The ranking is a permutation of
the scored notes, with non-increasing adjacent similarities. The model uses a
stable insertion sort to fix one order among ties. No property of tie order is
proved.

The context block interpolates a source's `text` raw, unlike the embedding
inputs and the quiz context. A note without `text` therefore shows the word
`undefined` in the prompt (`RagRoute.MissingTextRendersUndefined`). The quiz
decode does not check the shape of what it passes on: any truthy non-array
`quiz` value, such as `{"quiz": 5}`, is passed on as it is
(`QuizRoute.DecodeKeepsNonArrayQuiz`). The model reproduces both
behaviours as the code has them.

## Model

| member | source | states |
|---|---|---|
| `VectorMath.CosineSim` | app/api/rag/route.js:3-15 | the similarity is zero exactly when the dot product over the first vector's positions is zero, and positive exactly when that dot product is positive; the denominator never vanishes |
| `VectorMath.Denominator` | app/api/rag/route.js:14 | `sqrt(normA) * sqrt(normB) + 1e-12` is at least `1e-12`, so the division is always defined |
| `VectorMath.SquaredNorm` | app/api/rag/route.js:11-12 | the accumulated squared norm is never negative |
| `VectorMath.CosineSimLoop` | app/api/rag/route.js:3-15 | the loop with three accumulators returns exactly the functional similarity |
| `VectorMath.DotSymmetric` | app/api/rag/route.js:10 | the dot product is the same with its arguments swapped |
| `VectorMath.CosineSymmetric` | app/api/rag/route.js:3-15 | for equal-length vectors, swapping the arguments swaps the norms and leaves the similarity unchanged |
| `VectorMath.CosineOfZero` | app/api/rag/route.js:3-15 | an all-zero vector on either side gives similarity 0, not a division by zero |
| `VectorMath.CosineSelf` | app/api/rag/route.js:3-15 | with a square root exact at the squared norm `n`, a vector's similarity with itself is `n / (n + 1e-12)`, in `[0, 1)` |
| `VectorMath.CosineOpposite` | app/api/rag/route.js:3-15 | the similarity with the negated vector is the negated self-similarity |
| `JsText.Trim` | app/api/rag/route.js:26 | the trimmed text has no white space at either end, is no longer than the input, and is empty exactly when the input is all white space |
| `JsText.TrimInfix` | app/api/rag/route.js:26 | the trimmed text is a contiguous middle of the input, and only white space lies on either side of it |
| `JsText.TrimUnique` | app/api/rag/route.js:26 | any split of the input into white space, a middle with no white space at its ends, and white space has `trim`'s result as its middle |
| `JsText.TrimIdempotent` | app/api/rag/route.js:26 | trimming twice is trimming once |
| `JsText.Decimal` | app/api/rag/route.js:66 | the source number renders as a non-empty string of decimal digits with no leading zero |
| `JsText.DecimalRoundTrip` | app/api/rag/route.js:66 | the rendered digits denote the number rendered |
| `JsText.Join` | app/api/rag/route.js:66 | joining nothing gives the empty string; joining one part gives that part; otherwise the first part begins the result |
| `JsText.JoinSnoc` | app/api/rag/route.js:66 | joining one more part appends the separator and that part |
| `JsText.JoinSplit` | app/api/rag/route.js:66 | at any inner boundary, the joined text is the two halves joined with one separator between them |
| `JsText.JoinContainsParts` | app/api/rag/route.js:66 | every part occurs in the joined text |
| `JsValues.Raw` | app/api/rag/route.js:66 | a string field interpolates as itself, an absent one as `undefined`, a null one as `null` |
| `JsValues.Or` | app/api/rag/route.js:47 | the field-or-fallback is the field's string when that is non-empty, and the fallback otherwise |
| `JsValues.NoteText` | app/api/rag/route.js:47 | a note with a non-empty title renders as `Title: <title>`, a newline, then its text or `""`; a note without one renders as its text or `""` alone; a non-empty text always ends the rendering |
| `Http.KeyMissing` | app/api/rag/route.js:20 | the credential counts as present exactly when it is set and non-empty |
| `JsValues.NotesOf` | app/api/rag/route.js:25 | a `notes` field that is not an array counts as no notes; an array is taken as it is |
| `Ranker.Score` | app/api/rag/route.js:58-61 | a scored note carries that note's own id, title and text, and the cosine similarity of the question vector with the note's vector |
| `Ranker.Scored` | app/api/rag/route.js:58-61 | there is one scored entry per note, and entry `i` is note `i` scored against vector `i + 1` |
| `Ranker.SortedDescAllPairs` | app/api/rag/route.js:62 | in a list with non-increasing adjacent similarities, every earlier entry scores at least as high as every later one |
| `Ranker.Insert` | app/api/rag/route.js:62 | inserting into a sorted list keeps it sorted and adds exactly that one entry |
| `Ranker.SortDesc` | app/api/rag/route.js:62 | the sort returns a permutation of its input with non-increasing similarities |
| `Ranker.Rank` | app/api/rag/route.js:58-62 | `ranked` has one entry per note, is sorted by non-increasing similarity, and is a permutation of the scored notes |
| `Ranker.RankIsScoredNotes` | app/api/rag/route.js:58-62 | every ranked entry is some note `i` with its own fields, scored against vector `i + 1`; every note appears |
| `Ranker.TopK` | app/api/rag/route.js:64 | the selection is a prefix of `ranked` of length `min(3, ranked.length)` |
| `Ranker.TopKIsBest` | app/api/rag/route.js:62-64 | the selected sources are sorted, and each scores at least as high as every source left out |
| `Http.CompletionText` | app/api/rag/route.js:80 | the answer is the trimmed completion when that is non-blank, and the fixed fallback when the content is missing or blank |
| `RagRoute.QuestionOf` | app/api/rag/route.js:26 | a missing, null or empty question reads as `""`; a string question is trimmed |
| `RagRoute.EmbeddingInputs` | app/api/rag/route.js:47 | the batch has one more entry than there are notes; entry 0 is the question; entry `i + 1` is note `i` as an optional `Title: t` line followed by its text or `""` |
| `RagRoute.SourceEntry` | app/api/rag/route.js:66 | each context entry begins `Source <i+1> - ` |
| `RagRoute.SourceEntryParts` | app/api/rag/route.js:66 | an entry is exactly the line `Source <i+1> - <title or Untitled>` followed by the source's text as a template prints it |
| `RagRoute.RenderContext` | app/api/rag/route.js:66 | the context is empty exactly when no source is selected, and otherwise begins `Source 1 - `; a single source's context is exactly its entry |
| `RagRoute.RenderContextSnoc` | app/api/rag/route.js:66 | each further source adds a blank line and an entry labelled with its own 1-based position, its title or `Untitled`, and its raw text |
| `RagRoute.UserPrompt` | app/api/rag/route.js:69 | the grounded user message begins with the excerpts header and the context, and ends with `Question: <question>` and `Answer:`, each after a blank line, with nothing else in between |
| `RagRoute.AnswerWithoutNotes` | app/api/rag/route.js:34-44 | with no notes, there is exactly one chat call, whose user message is the trimmed question; a rejected call gives `Server error.`; otherwise 200 with the completion or `I couldn't generate an answer.`, and no sources |
| `RagRoute.AnswerFromNotes` | app/api/rag/route.js:47-81 | the embedding call comes first, with the question-then-notes batch; if it fails, the response is `Server error.` and nothing else is called; otherwise one grounded chat call with a non-empty context from the top sources, then 200 with the completion or `I couldn't find that in your notes.`, and those sources |
| `RagRoute.Post` | app/api/rag/route.js:17-86 | a missing key gives 500 with the key message before anything else; then a blank question gives 400 `Question is required.` with no call; no model call happens exactly in those two cases; a 200 answer is non-empty, with `min(3, notes)` sorted sources; a generic 500 only follows a failed provider call |
| `RagRoute.NotArrayIsNoNotes` | app/api/rag/route.js:25 | a non-array `notes` field gives the same outcome as an empty array |
| `RagRoute.SingleNoteIsTheSource` | app/api/rag/route.js:58-64 | with exactly one note, the only source returned is that note, with its own id and its score |
| `RagRoute.MissingTextRendersUndefined` | app/api/rag/route.js:66 | a selected source without text, at any position `i`, renders as `Source <i+1> - <title or Untitled>` followed by a line `undefined`, and that entry occurs in the context |
| `QuizRoute.NotesContext` | app/api/quiz/route.js:19 | the first note's rendering begins the quiz context, and a single note's context is exactly its rendering |
| `QuizRoute.NotesContextSnoc` | app/api/quiz/route.js:19 | each further note adds a blank line and its own rendering |
| `QuizRoute.UserMessage` | app/api/quiz/route.js:22 | the user message is `Notes:`, a newline, then the notes context |
| `QuizRoute.ResponseText` | app/api/quiz/route.js:33 | the text handed to the parser is never blank; a missing or blank completion becomes `{}`, and any other completion is passed on trimmed |
| `QuizRoute.DecodeQuiz` | app/api/quiz/route.js:34-42 | a parsed array is the quiz unchanged; an object with a truthy `quiz` yields that value; the result is always truthy and is `[]` on a parse failure, `null`, a primitive, or a missing or falsy `quiz` |
| `QuizRoute.DecodeAcceptsBothShapes` | app/api/quiz/route.js:37-38 | a bare array and `{quiz: array}` decode to the same list |
| `QuizRoute.DecodeKeepsNonArrayQuiz` | app/api/quiz/route.js:38 | for any object whose `quiz` is truthy and not an array, the decoded quiz is that value, unchecked and not a list |
| `QuizRoute.Post` | app/api/quiz/route.js:3-49 | a missing key gives 500 first; no notes gives 200 `{quiz: []}` with no call; otherwise exactly one chat call with `Notes:` and the context; once that call returns, the status is 200 and the body holds the decoded quiz; a rejected call gives `Server error.` |
| `QuizRoute.BlankCompletionGivesEmptyQuiz` | app/api/quiz/route.js:33-38 | given that `{}` parses to an empty object, a missing or blank completion yields 200 `{quiz: []}` |
| `QuizRoute.UnparsableGivesEmptyQuiz` | app/api/quiz/route.js:35-44 | a completion that does not parse yields 200 `{quiz: []}`, not an error |

## Left out

- The provider calls are not modelled. Their outputs are parameters, and the model records their inputs. Model names, temperatures and `response_format` are not modelled.
- VectorMath.CosineSim: uses exact reals and an abstract square root, not IEEE-754 doubles and `Math.sqrt`. The range `[-1, 1]` is not proved: it needs Cauchy–Schwarz and a real square root. `cosineSim(a, a) ≈ 1` is stated only for a root exact at the squared norm.
- VectorMath.CosineSimLoop: requires the abstract square root to be non-negative at the two squared norms, as `Math.sqrt` is; the functions that score notes ask this of the root everywhere on non-negative reals.
- VectorMath.CosineSim: requires the second vector to be at least as long as the first. A shorter one reads `undefined` in JavaScript and produces NaN, which reals cannot express.
- RagRoute.AnswerFromNotes: requires a well-formed embedding reply: one vector per input, none shorter than the question's vector. With a mismatched count the code would rank fewer notes or throw on a missing note. That reply shape is the embedding service's own contract.
- RagRoute.Post: inherits the embedding-reply precondition of `AnswerFromNotes`.
- Sort internals are not modelled: the algorithm, tie order, and NaN in the comparator. Only permutation and sortedness are promised.
- Request fields holding numbers, booleans, arrays or objects are not modelled. JavaScript's string conversion of those values is not modelled.
- A `null` element of `notes` is not modelled. Reading its `title` throws, which gives `Server error.`. Elements that are numbers, strings, booleans or arrays read every field as `undefined`, which `Note(Undefined, Undefined, Undefined)` expresses.
- A non-string `content` in a completion is not modelled. Its `trim` would throw.
- `req.json()` rejecting a malformed body (which gives `Server error.`) is not modelled. Also left out: headers, `JSON.stringify`, `console.error` logging, `async`/`await` and `process.env`. The credential is an `Option<string>` input.
- The JSON grammar is not modelled. `JSON.parse` is a parameter.
- The quiz's shape is not modelled: five questions with four options each are requested but not checked, as in the code.
- app/page.js (client UI and note store) and app/layout.js (static markup) are not part of this model.
