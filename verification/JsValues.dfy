/**
 * The loosely shaped values the handlers read from a request body: the
 * string-valued fields of a note and of the request, and the notes list.
 */
module JsValues {
  import opened JsText

  /** A request-body field that holds a string, holds `null`, or is absent. */
  datatype Field = Undefined | Null | Str(s: string)

  /** JavaScript truthiness: only a non-empty string is truthy. */
  predicate Truthy(f: Field) {
    f.Str? && f.s != ""
  }

  /** `${f}`: the field interpolated as it is, absent and null included. */
  function Raw(f: Field): (r: string)
    ensures f.Str? ==> r == f.s
    ensures f.Undefined? ==> r == "undefined"
    ensures f.Null? ==> r == "null"
  {
    match f
    case Undefined => "undefined"
    case Null => "null"
    case Str(s) => s
  }

  /** `f || fallback`. */
  function Or(f: Field, fallback: string): (r: string)
    ensures Truthy(f) ==> r == f.s
    ensures !Truthy(f) ==> r == fallback
  {
    if Truthy(f) then f.s else fallback
  }

  /** One element of the `notes` array of a request body. */
  datatype Note = Note(id: Field, title: Field, text: Field)

  /** `body.notes`: an array of notes, or anything that is not an array. */
  datatype NotesField = NotArray | Array(items: seq<Note>)

  /** `Array.isArray(body?.notes) ? body.notes : []`. */
  function NotesOf(f: NotesField): (notes: seq<Note>)
    ensures f.NotArray? ==> notes == []
    ensures f.Array? ==> notes == f.items
  {
    match f
    case NotArray => []
    case Array(items) => items
  }

  /**
   * The plain-text rendering of a note shared by the embedding inputs and the
   * quiz context: an optional `Title: <title>` line, then the text or nothing.
   */
  function NoteText(n: Note): (r: string)
    ensures Truthy(n.title) ==> r == "Title: " + n.title.s + "\n" + Or(n.text, "")
    ensures !Truthy(n.title) ==> r == Or(n.text, "")
    ensures Truthy(n.text) ==> |r| >= |n.text.s| && r[|r| - |n.text.s|..] == n.text.s
  {
    (if Truthy(n.title) then "Title: " + Raw(n.title) + "\n" else "") + Or(n.text, "")
  }
}
