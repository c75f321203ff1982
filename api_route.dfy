/** The `POST /api/quote` handler of `sample-code/api-route-example.js`:
    validate the parsed body, hand a notification to the sender, and map
    the outcome to an HTTP status and payload. */
module ApiRoute {
  import opened Js

  datatype Option<T> = None | Some(value: T)

  /** The fields `{ name, email, phone, project }` destructured from the body. */
  datatype Body = Body(name: Value, email: Value, phone: Value, project: Value)

  /** The outcome of `await request.json()` and the destructuring of its
      result: a body, or a thrown error (a parse failure, or a `null` body). */
  datatype Request = Parsed(body: Body) | Unparseable

  /** The notification handed to the sender: `{ to, subject, body }`. */
  datatype Message = Message(to: string, subject: string, body: string)

  /** What awaiting the sender gives: the boolean it resolves to, or a rejection. */
  datatype SendResult = Resolved(sent: bool) | Rejected

  /** The JSON payload: `{ success: true, message }` or `{ error }`. */
  datatype Payload = Submitted(message: string) | Failure(error: string)

  datatype Response = Response(status: int, payload: Payload)

  /** The response, together with the notification the handler passed to
      the sender (`None` when it returned before sending). */
  datatype Handled = Handled(response: Response, dispatched: Option<Message>)

  const RequiredFieldsError := "Name and project description are required"
  const ContactMethodError := "Please provide either a phone number or email address"
  const SubmittedMessage := "Request submitted successfully"
  const SendFailedError := "Failed to send email"
  const InternalError := "Internal server error"
  const BusinessAddress := "business@example.com"

  /** A body that passes both checks of `POST`: a name and a project
      description, and a phone number or an email address to reach the
      requester. */
  predicate IsQuoteRequest(b: Body) {
    Truthy(b.name) && Truthy(b.project) && (Truthy(b.email) || Truthy(b.phone))
  }

  /** The notification built from a body that passed validation. */
  function Notification(b: Body): (m: Message)
    ensures m.to == BusinessAddress
    ensures Truthy(b.name) ==> m.subject == "New Request from " + b.name.s
  {
    Message(
      BusinessAddress,
      "New Request from " + TemplateText(b.name),
      "Name: " + TemplateText(b.name) + "\nEmail: " + TemplateText(b.email) +
      "\nPhone: " + TemplateText(b.phone) + "\nProject: " + TemplateText(b.project))
  }

  /** `simulateEmailSend`: the placeholder sender, which always resolves to true. */
  function SimulateEmailSend(m: Message): SendResult {
    Resolved(true)
  }

  /** `POST(request)`, with the sender as a parameter. */
  function Post(request: Request, send: Message -> SendResult): (h: Handled)
    ensures h.response.status in {200, 400, 500}
    ensures h.response.status == 400 <==> request.Parsed? && !IsQuoteRequest(request.body)
    ensures h.dispatched.Some? <==> request.Parsed? && IsQuoteRequest(request.body)
    ensures h.dispatched.Some? ==> h.dispatched.value == Notification(request.body)
    ensures h.response.status == 200 <==>
              h.dispatched.Some? && send(h.dispatched.value) == Resolved(true)
    ensures h.response.status == 200 <==> h.response.payload.Submitted?
    ensures request.Unparseable? ==> h.response == Response(500, Failure(InternalError))
  {
    match request
    case Unparseable =>
      Handled(Response(500, Failure(InternalError)), None)
    case Parsed(b) =>
      if !Truthy(b.name) || !Truthy(b.project) then
        Handled(Response(400, Failure(RequiredFieldsError)), None)
      else if !Truthy(b.phone) && !Truthy(b.email) then
        Handled(Response(400, Failure(ContactMethodError)), None)
      else
        var m := Notification(b);
        match send(m)
        case Resolved(true) => Handled(Response(200, Submitted(SubmittedMessage)), Some(m))
        case Resolved(false) => Handled(Response(500, Failure(SendFailedError)), Some(m))
        case Rejected => Handled(Response(500, Failure(InternalError)), Some(m))
  }

  /** A missing name or project is reported first, whatever the contact
      fields hold and whatever the sender would do. */
  lemma RequiredFieldsCheckedFirst(b: Body, send: Message -> SendResult)
    requires !Truthy(b.name) || !Truthy(b.project)
    ensures Post(Parsed(b), send) == Handled(Response(400, Failure(RequiredFieldsError)), None)
  {
  }

  /** With a name and a project but no phone and no email, the contact-method error is reported. */
  lemma ContactMethodCheckedSecond(b: Body, send: Message -> SendResult)
    requires Truthy(b.name) && Truthy(b.project)
    requires !Truthy(b.phone) && !Truthy(b.email)
    ensures Post(Parsed(b), send) == Handled(Response(400, Failure(ContactMethodError)), None)
  {
  }

  /** A valid request is answered from what the sender resolves to. */
  lemma SendOutcomeDecides(b: Body, send: Message -> SendResult)
    requires IsQuoteRequest(b)
    ensures send(Notification(b)) == Resolved(true) ==>
              Post(Parsed(b), send).response == Response(200, Submitted(SubmittedMessage))
    ensures send(Notification(b)) == Resolved(false) ==>
              Post(Parsed(b), send).response == Response(500, Failure(SendFailedError))
    ensures send(Notification(b)) == Rejected ==>
              Post(Parsed(b), send).response == Response(500, Failure(InternalError))
  {
  }

  /** With the placeholder sender, a request is accepted exactly when it is a quote request. */
  lemma StubSenderAcceptsEveryQuoteRequest(request: Request)
    ensures Post(request, SimulateEmailSend).response.status == 200 <==>
              request.Parsed? && IsQuoteRequest(request.body)
    ensures request.Parsed? && IsQuoteRequest(request.body) ==>
              Post(request, SimulateEmailSend).response == Response(200, Submitted(SubmittedMessage))
  {
  }

  /** The subject of the notification names the requester. */
  lemma DispatchedSubjectNamesRequester(request: Request, send: Message -> SendResult)
    requires Post(request, send).dispatched.Some?
    ensures Post(request, send).dispatched.value.subject == "New Request from " + request.body.name.s
    ensures Post(request, send).dispatched.value.to == BusinessAddress
  {
  }
}
