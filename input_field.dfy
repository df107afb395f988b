// The validation state a text field shows under its input, and what a text
// change does to it before the screen's own validator runs.
module InputFields {
  import opened Wrappers

  datatype ValidationState =
    | Initial
    | Editing
    | Valid(validMessage: Option<string>)
    | Invalid(invalidMessage: string)
    | Loading(loadingMessage: string)

  /** The text shown under the field; a field that has not been judged yet
    * shows none. */
  function Message(s: ValidationState): (m: Option<string>)
    ensures s.Initial? || s.Editing? ==> m.None?
    ensures s.Valid? ==> m == s.validMessage
    ensures s.Invalid? ==> m == Some(s.invalidMessage)
    ensures s.Loading? ==> m == Some(s.loadingMessage)
  {
    match s
    case Initial => None
    case Editing => None
    case Valid(message) => message
    case Invalid(message) => Some(message)
    case Loading(message) => Some(message)
  }

  function IsValid(s: ValidationState): (b: bool)
    ensures b <==> s.Valid?
  {
    s.Valid?
  }

  /** The first edit of an untouched field marks it as being edited; every
    * other state is left for the validator to change. */
  function AfterTextChange(s: ValidationState): (r: ValidationState)
    ensures s.Initial? ==> r == Editing
    ensures !s.Initial? ==> r == s
  {
    if s.Initial? then Editing else s
  }

  /** An invalid or loading field always shows a message, and only a judged
    * field can. */
  lemma MessageOnlyWhenJudged(s: ValidationState)
    ensures Message(s).Some? ==> !(s.Initial? || s.Editing?)
    ensures s.Invalid? || s.Loading? ==> Message(s).Some?
  {
  }

  /** Editing never makes a field valid or invalid, and a second edit in a
    * row changes nothing more. */
  lemma TextChangeIsIdempotent(s: ValidationState)
    ensures AfterTextChange(AfterTextChange(s)) == AfterTextChange(s)
    ensures IsValid(AfterTextChange(s)) <==> IsValid(s)
    ensures Message(AfterTextChange(s)) == Message(s)
  {
  }
}
