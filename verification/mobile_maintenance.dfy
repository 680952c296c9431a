/**
 * The mobile maintenance page: the same contact form and submit flags as
 * the desktop page, with no local log. A successful submit only switches
 * the page to its "sent" panel; the form keeps its contents.
 */
module MobileSupport {
  import opened Wrappers
  import opened ContactForm
  import ContactLog

  /** The text shown when a submit fails, whatever the cause. */
  const SendFailure := "Errore di invio. Riprova più tardi."

  datatype MobileState = MobileState(form: FormData, flags: Flags)

  /** One run of the submit handler, given how its remote attempt ended. */
  function SubmitStep(s: MobileState, outcome: RemoteOutcome): (t: MobileState)
    ensures t.form == s.form
    ensures !t.flags.isSubmitting
    ensures outcome == Accepted ==> t.flags.isSubmitted && t.flags.error == None
    ensures outcome != Accepted ==> t.flags.isSubmitted == s.flags.isSubmitted && t.flags.error == Some(SendFailure)
  {
    MobileState(s.form, Settle(Start(s.flags), outcome, SendFailure))
  }

  /**
   * Both pages run one flag machine: from the same flags and the same
   * outcome they reach the same `isSubmitting` and `isSubmitted`, and show
   * an error in the same cases, differing only in its text (as long as the
   * desktop page's storage write succeeds).
   */
  lemma SameFlagMachine(s: ContactLog.PageState, m: MobileState, outcome: RemoteOutcome, id: string, date: string)
    requires s.flags == m.flags
    ensures var desk := ContactLog.SubmitStep(s, outcome, true, id, date).flags;
      var mobile := SubmitStep(m, outcome).flags;
      && desk.isSubmitting == mobile.isSubmitting
      && desk.isSubmitted == mobile.isSubmitted
      && (desk.error == None <==> mobile.error == None)
  {
  }

  /** The page component: its state hooks as fields, its handlers as methods. */
  class MobileSupportPage {
    var formData: FormData
    var isSubmitted: bool
    var isSubmitting: bool
    var error: Option<string>

    ghost function State(): MobileState
      reads this
    {
      MobileState(formData, Flags(isSubmitting, isSubmitted, error))
    }

    /** Mounting: the initial hook values. */
    constructor ()
      ensures State() == MobileState(EmptyForm, Idle)
    {
      formData := EmptyForm;
      isSubmitted := false;
      isSubmitting := false;
      error := None;
    }

    /**
     * `handleSubmit`, with the remote attempt's outcome supplied. The submit
     * button is disabled while a submit is in flight, so it is only invoked
     * with `isSubmitting` lowered.
     */
    method HandleSubmit(outcome: RemoteOutcome)
      requires !isSubmitting
      modifies this
      ensures State() == SubmitStep(old(State()), outcome)
      ensures !isSubmitting
    {
      isSubmitting := true;
      error := None;
      if outcome == Accepted {
        isSubmitted := true;
      } else {
        error := Some(SendFailure);
      }
      isSubmitting := false;
    }

    /** The "Scrivi ancora" button: back to the form, which keeps its contents. */
    method WriteAgain()
      modifies this
      ensures State() == MobileState(old(formData), Reopen(old(State()).flags))
    {
      isSubmitted := false;
    }

    /** The `onChange` handler of one form input. */
    method EditField(field: Field, value: string)
      modifies this
      ensures State() == old(State()).(form := WithField(old(formData), field, value))
    {
      formData := WithField(formData, field, value);
    }
  }
}
