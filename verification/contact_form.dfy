/**
 * What the two maintenance pages share: the three-field contact form and
 * the flag state machine that every submit runs through
 * (`isSubmitting`, `isSubmitted`, `error`).
 */
module ContactForm {
  import opened Wrappers

  /** The controlled form state `formData`. */
  datatype FormData = FormData(name: string, email: string, message: string)

  /** The initial and the reset value of `formData`. */
  const EmptyForm := FormData("", "", "")

  /** The three inputs of the form, one per field of `FormData`. */
  datatype Field = Name | Email | Body

  function Read(form: FormData, field: Field): string
  {
    match field
    case Name => form.name
    case Email => form.email
    case Body => form.message
  }

  /** An input's `onChange`: `setFormData({...formData, <field>: value})`. */
  function WithField(form: FormData, field: Field, value: string): (r: FormData)
    ensures Read(r, field) == value
    ensures forall other :: other != field ==> Read(r, other) == Read(form, other)
  {
    match field
    case Name => form.(name := value)
    case Email => form.(email := value)
    case Body => form.(message := value)
  }

  /** The three status flags; `error` is `null` (None) or the message shown. */
  datatype Flags = Flags(isSubmitting: bool, isSubmitted: bool, error: Option<string>)

  /** The initial value of the flags. */
  const Idle := Flags(false, false, None)

  /**
   * How the single remote attempt ended: `response.ok`, a response that is
   * not ok (the handler throws inside its own `try`), or a `fetch` that
   * throws before any response.
   */
  datatype RemoteOutcome = Accepted | Rejected | Unreachable

  /** The first statements of a submit handler: raise `isSubmitting`, clear `error`. */
  function Start(f: Flags): (g: Flags)
    ensures g.isSubmitting && g.error == None
    ensures g.isSubmitted == f.isSubmitted
  {
    f.(isSubmitting := true, error := None)
  }

  /**
   * The end of a submit handler once the remote attempt has resolved:
   * success raises `isSubmitted`, any failure sets `error` to the page's
   * fixed text, and the `finally` block lowers `isSubmitting` on every path.
   */
  function Settle(f: Flags, outcome: RemoteOutcome, failure: string): (g: Flags)
    ensures !g.isSubmitting
    ensures outcome == Accepted ==> g.isSubmitted && g.error == f.error
    ensures outcome != Accepted ==> g.isSubmitted == f.isSubmitted && g.error == Some(failure)
  {
    var g := if outcome == Accepted then f.(isSubmitted := true) else f.(error := Some(failure));
    g.(isSubmitting := false)
  }

  /** The "send another" / "Scrivi ancora" button: `setIsSubmitted(false)`. */
  function Reopen(f: Flags): (g: Flags)
    ensures !g.isSubmitted
    ensures g.isSubmitting == f.isSubmitting && g.error == f.error
  {
    f.(isSubmitted := false)
  }

  /**
   * A whole submit seen from outside: the error is shown exactly when the
   * attempt failed, the page is in its "sent" state afterwards exactly when
   * this attempt succeeded or the "sent" panel was already showing before
   * it, and no path leaves the handler with `isSubmitting` raised.
   */
  lemma SubmitSettles(f: Flags, outcome: RemoteOutcome, failure: string)
    ensures var g := Settle(Start(f), outcome, failure);
      && !g.isSubmitting
      && (g.error == None <==> outcome == Accepted)
      && (g.isSubmitted <==> outcome == Accepted || f.isSubmitted)
  {
  }
}
