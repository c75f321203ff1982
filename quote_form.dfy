/** The state of the `QuoteForm` component of `sample-code/QuoteForm.jsx`:
    the four form fields, the busy flag and the submission status, and the
    two handlers that change them. */
module QuoteForm {

  datatype Status = Idle | Submitting | Success | Error

  /** The `name` attribute of an input, which selects the field it edits. */
  datatype Field = Name | Email | Phone | Project

  datatype FormData = FormData(name: string, email: string, phone: string, project: string) {

    function Get(f: Field): string {
      match f
      case Name => name
      case Email => email
      case Phone => phone
      case Project => project
    }

    /** `{ ...this, [f]: v }`. */
    function With(f: Field, v: string): (d: FormData)
      ensures d.Get(f) == v
      ensures forall g :: g != f ==> d.Get(g) == Get(g)
    {
      match f
      case Name => this.(name := v)
      case Email => this.(email := v)
      case Phone => this.(phone := v)
      case Project => this.(project := v)
    }
  }

  const EmptyForm := FormData("", "", "", "")

  /** How the awaited `fetch` ends: a response whose `ok` flag is given, or a thrown error. */
  datatype FetchOutcome = Responded(ok: bool) | Threw

  class QuoteForm {
    var formData: FormData
    var isSubmitting: bool
    var submitStatus: Status

    /** The busy flag is set exactly while a submission is in flight. */
    ghost predicate Valid()
      reads this
    {
      isSubmitting <==> submitStatus == Submitting
    }

    /** The initial `useState` values. */
    constructor ()
      ensures Valid()
      ensures formData == EmptyForm && !isSubmitting && submitStatus == Idle
    {
      formData := EmptyForm;
      isSubmitting := false;
      submitStatus := Idle;
    }

    /** `handleInputChange`: the edited field takes the input's value. */
    method HandleInputChange(field: Field, value: string)
      requires Valid()
      modifies this
      ensures Valid()
      ensures formData == old(formData).With(field, value)
      ensures isSubmitting == old(isSubmitting) && submitStatus == old(submitStatus)
    {
      formData := formData.With(field, value);
    }

    /** The part of `handleSubmit` before the request is awaited: mark the
        form busy and return the request body, the fields as they are now. */
    method BeginSubmit() returns (payload: FormData)
      modifies this
      ensures Valid()
      ensures payload == old(formData)
      ensures formData == old(formData)
      ensures isSubmitting && submitStatus == Submitting
    {
      isSubmitting := true;
      submitStatus := Submitting;
      payload := formData;
    }

    /** The part of `handleSubmit` after the request settles: record the
        outcome, clear the fields on success, and clear the busy flag. */
    method CompleteSubmit(outcome: FetchOutcome)
      modifies this
      ensures Valid()
      ensures !isSubmitting
      ensures outcome == Responded(true) ==> submitStatus == Success && formData == EmptyForm
      ensures outcome != Responded(true) ==> submitStatus == Error && formData == old(formData)
    {
      match outcome {
        case Responded(ok) =>
          if ok {
            submitStatus := Success;
            formData := EmptyForm;
          } else {
            submitStatus := Error;
          }
        case Threw =>
          submitStatus := Error;
      }
      isSubmitting := false;
    }

    /** `handleSubmit` with the request settling as `outcome` and no edits
        while it is in flight. */
    method HandleSubmit(outcome: FetchOutcome) returns (payload: FormData)
      modifies this
      ensures Valid()
      ensures payload == old(formData)
      ensures !isSubmitting
      ensures outcome == Responded(true) ==> submitStatus == Success && formData == EmptyForm
      ensures outcome != Responded(true) ==> submitStatus == Error && formData == old(formData)
    {
      payload := BeginSubmit();
      CompleteSubmit(outcome);
    }
  }
}
