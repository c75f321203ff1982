/** The form and the route together: `handleSubmit` posts the fields as
    JSON to `/api/quote`, and the response's `ok` flag (a 2xx status)
    decides how the form settles. */
module QuoteFlow {
  import opened Js
  import opened ApiRoute
  import opened QuoteForm

  /** What the route reads back from `JSON.stringify(formData)`: four strings. */
  function RequestOf(d: FormData): (r: Request)
    ensures r.Parsed?
    ensures IsQuoteRequest(r.body) <==>
              d.name != "" && d.project != "" && (d.email != "" || d.phone != "")
  {
    Parsed(Body(Str(d.name), Str(d.email), Str(d.phone), Str(d.project)))
  }

  /** `response.ok`: the status is in the range 200-299. */
  function OutcomeOf(r: Response): FetchOutcome {
    Responded(200 <= r.status < 300)
  }

  /** One submission of the form, answered by the route with sender `send`. */
  method SubmitToRoute(form: QuoteForm, send: Message -> SendResult) returns (handled: Handled)
    modifies form
    ensures handled == Post(RequestOf(old(form.formData)), send)
    ensures form.Valid() && !form.isSubmitting
    ensures form.submitStatus == Success <==>
              IsQuoteRequest(RequestOf(old(form.formData)).body) &&
              send(Notification(RequestOf(old(form.formData)).body)) == Resolved(true)
    ensures form.submitStatus == Success ==> form.formData == EmptyForm
    ensures form.submitStatus != Success ==> form.submitStatus == Error && form.formData == old(form.formData)
  {
    var payload := form.BeginSubmit();
    handled := Post(RequestOf(payload), send);
    form.CompleteSubmit(OutcomeOf(handled.response));
  }

  /** Against the placeholder sender, a filled-in form is accepted exactly
      when it has a name, a project and a phone number or an email address. */
  lemma StubRouteAnswersForm(d: FormData)
    ensures OutcomeOf(Post(RequestOf(d), SimulateEmailSend).response) ==
              Responded(d.name != "" && d.project != "" && (d.email != "" || d.phone != ""))
  {
    StubSenderAcceptsEveryQuoteRequest(RequestOf(d));
  }
}
