/**
 * The contact form: editing one field at a time, and the submission
 * lifecycle (submitting, then the thank-you panel, then a cleared form).
 * The two delays are steps of their own.
 */
module Contact {
  datatype Field = Name | Email | Subject | MessageField

  datatype FormData = FormData(name: string, email: string, subject: string, message: string)

  const EMPTY_FORM: FormData := FormData("", "", "", "")

  function Get(d: FormData, f: Field): string
  {
    match f
    case Name => d.name
    case Email => d.email
    case Subject => d.subject
    case MessageField => d.message
  }

  /** `{ ...prev, [name]: value }`: the named field takes the value and the other three keep theirs. */
  function WithField(d: FormData, f: Field, value: string): (r: FormData)
    ensures Get(r, f) == value
    ensures forall g :: g != f ==> Get(r, g) == Get(d, g)
  {
    match f
    case Name => d.(name := value)
    case Email => d.(email := value)
    case Subject => d.(subject := value)
    case MessageField => d.(message := value)
  }

  /** Two forms with the same four fields are the same form. */
  lemma SameFieldsSameForm(a: FormData, b: FormData)
    requires forall f :: Get(a, f) == Get(b, f)
    ensures a == b
  {
    assert Get(a, Name) == Get(b, Name);
    assert Get(a, Email) == Get(b, Email);
    assert Get(a, Subject) == Get(b, Subject);
    assert Get(a, MessageField) == Get(b, MessageField);
  }

  /** Typing into a field twice keeps only the last value. */
  lemma LastEditWins(d: FormData, f: Field, v: string, w: string)
    ensures WithField(WithField(d, f, v), f, w) == WithField(d, f, w)
  {
    SameFieldsSameForm(WithField(WithField(d, f, v), f, w), WithField(d, f, w));
  }

  /** Edits to different fields do not interfere, whatever their order. */
  lemma EditsCommute(d: FormData, f: Field, v: string, g: Field, w: string)
    requires f != g
    ensures WithField(WithField(d, f, v), g, w) == WithField(WithField(d, g, w), f, v)
  {
    SameFieldsSameForm(WithField(WithField(d, f, v), g, w), WithField(WithField(d, g, w), f, v));
  }

  /** Writing back a field's own value changes nothing. */
  lemma EditSameValue(d: FormData, f: Field)
    ensures WithField(d, f, Get(d, f)) == d
  {
    SameFieldsSameForm(WithField(d, f, Get(d, f)), d);
  }

  /** The browser's `required` check on the four inputs: the form is sent only when no field is empty. */
  predicate AllFilled(d: FormData)
  {
    forall f :: Get(d, f) != ""
  }

  /** After typing `v` into field `f`, the form passes the `required` check iff `v` and the other three fields are non-empty. */
  lemma FilledAfterEdit(d: FormData, f: Field, v: string)
    ensures AllFilled(WithField(d, f, v)) <==> v != "" && forall g :: g != f ==> Get(d, g) != ""
  {
    if v != "" && forall g :: g != f ==> Get(d, g) != "" {
      forall g
        ensures Get(WithField(d, f, v), g) != ""
      {
        if g != f {
          assert Get(WithField(d, f, v), g) == Get(d, g);
        }
      }
    }
  }

  class ContactPage {
    var formData: FormData
    var isSubmitting: bool
    var isSubmitted: bool
    /** The submission delay is running. */
    var completionDue: bool
    /** The reset delay is running. */
    var resetDue: bool

    /** The two flags are never on together, and each flag is on exactly while its delay runs. */
    predicate Valid()
      reads this
    {
      !(isSubmitting && isSubmitted) && (isSubmitting <==> completionDue) && (isSubmitted <==> resetDue)
    }

    /** The thank-you panel replaces the form exactly when the message has been sent. */
    predicate ShowsThankYou()
      reads this
    {
      isSubmitted
    }

    /** `disabled={isSubmitting}` on the submit button. */
    predicate SubmitDisabled()
      reads this
    {
      isSubmitting
    }

    constructor ()
      ensures Valid()
      ensures formData == EMPTY_FORM && !isSubmitting && !isSubmitted
    {
      formData := EMPTY_FORM;
      isSubmitting := false;
      isSubmitted := false;
      completionDue := false;
      resetDue := false;
    }

    /** `handleInputChange` for the input named `f`. */
    method Edit(f: Field, value: string)
      requires Valid()
      modifies this
      ensures Valid()
      ensures formData == WithField(old(formData), f, value)
      ensures isSubmitting == old(isSubmitting) && isSubmitted == old(isSubmitted)
      ensures completionDue == old(completionDue) && resetDue == old(resetDue)
    {
      formData := WithField(formData, f, value);
    }

    /**
     * `handleSubmit`, from the visible form with its button enabled, once the
     * browser's `required` check has let the submit event through.
     */
    method Submit()
      requires Valid() && !ShowsThankYou() && !SubmitDisabled() && AllFilled(formData)
      modifies this
      ensures Valid()
      ensures isSubmitting && !isSubmitted && formData == old(formData)
    {
      isSubmitting := true;
      completionDue := true;
    }

    /** The submission delay ends: the thank-you panel shows and the reset delay starts. */
    method SubmissionCompletes()
      requires Valid() && completionDue
      modifies this
      ensures Valid()
      ensures !isSubmitting && isSubmitted && formData == old(formData)
    {
      isSubmitting := false;
      completionDue := false;
      isSubmitted := true;
      resetDue := true;
    }

    /** The reset delay ends: the form is back, with all four fields empty. */
    method ResetCompletes()
      requires Valid() && resetDue
      modifies this
      ensures Valid()
      ensures !isSubmitted && !isSubmitting && formData == EMPTY_FORM
      ensures forall f :: Get(formData, f) == ""
    {
      isSubmitted := false;
      resetDue := false;
      formData := EMPTY_FORM;
    }
  }

  /**
   * A whole submission from the visible, filled-in form ends with an empty
   * form and both flags off, so the next submission needs all four fields
   * typed again.
   */
  method SubmitRoundTrip(page: ContactPage)
    requires page.Valid() && !page.ShowsThankYou() && !page.SubmitDisabled() && AllFilled(page.formData)
    modifies page
    ensures page.Valid() && !page.isSubmitting && !page.isSubmitted && page.formData == EMPTY_FORM
    ensures !AllFilled(page.formData)
  {
    page.Submit();
    assert page.isSubmitting && !page.isSubmitted;
    page.SubmissionCompletes();
    assert !page.isSubmitting && page.isSubmitted;
    page.ResetCompletes();
    assert Get(page.formData, Name) == "";
  }
}
