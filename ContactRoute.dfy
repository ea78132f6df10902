/** app/api/send/route.ts: `POST /api/send`, the contact-form handler. It
    reads the JSON body, checks the three required fields, checks that the
    e-mail provider is configured, builds the e-mail and maps the provider's
    verdict to a response. */
module ContactRoute {
  import opened JsValues
  import opened EmailTemplate
  import opened Mail

  /** The fields the handler destructures from the JSON body. */
  datatype ContactRequest = ContactRequest(name: Field, email: Field, service: Field, message: Field, formType: Field)

  const DefaultFrom := "Portfolio Contact <noreply@yourdomain.com>"

  /** `!name || !email || !message` is false. `service` is not required. */
  predicate HasRequiredFields(req: ContactRequest) {
    Truthy(req.name) && Truthy(req.email) && Truthy(req.message)
  }

  /** The subject line for a (defaulted) form type. */
  function Subject(formType: string): string {
    if formType == "contact" then ContactHeading else OrderHeading
  }

  /** The e-mail for a request that passed the guard. */
  function ContactEmail(req: ContactRequest, env: Env): (e: Email)
    requires HasRequiredFields(req)
    ensures e.from == Or(env.fromEmail, DefaultFrom) && e.replyTo == req.email.value
    ensures e.to == Recipients(env)
    ensures e.subject == ContactHeading <==> (req.formType.None? || req.formType.value == "contact")
    ensures e.subject != ContactHeading ==> e.subject == OrderHeading
    ensures e.template.firstName == req.name.value && e.template.lastName.None?
    ensures e.template.email == req.email.value
    ensures e.template.service == req.service && e.template.message == req.message.value
    ensures e.template.formType == Some(EffectiveFormType(req.formType))
  {
    var formType := EffectiveFormType(req.formType);
    Email(
      from := Or(env.fromEmail, DefaultFrom),
      to := Recipients(env),
      replyTo := req.email.value,
      subject := Subject(formType),
      template := TemplateProps(req.name.value, None, req.email.value, req.service, req.message.value, Some(formType)))
  }

  /** The handler. `body` is None when `request.json()` throws. */
  function Post(body: Option<ContactRequest>, env: Env): (h: Handled)
    ensures body.None? ==> h == Handled(InternalError, None)
    ensures body.Some? && !HasRequiredFields(body.value) ==> h == Handled(MissingFields, None)
    ensures body.Some? && HasRequiredFields(body.value) && !Configured(env) ==> h == Handled(NotConfigured, None)
    ensures h.sent.Some? <==> body.Some? && HasRequiredFields(body.value) && Configured(env)
    ensures h.sent.Some? ==> h.sent.value == ContactEmail(body.value, env)
    ensures h.sent.Some? ==> (env.send.ProviderError? <==> h.response == Response(400, ErrorJson("Failed to send email")))
    ensures h.sent.Some? ==> (env.send.Delivered? <==> h.response.status == 200)
    ensures h.sent.Some? && env.send.Delivered? ==> h.response == Response(200, MessageJson("Email sent successfully", env.send.data))
    ensures h.sent.Some? ==> (env.send.SendThrew? <==> h.response == InternalError)
  {
    match body
    case None => Handled(InternalError, None)
    case Some(req) =>
      if !HasRequiredFields(req) then Handled(MissingFields, None)
      else if !Configured(env) then Handled(NotConfigured, None)
      else Dispatch(ContactEmail(req, env), env, "Failed to send email", "Email sent successfully")
  }

  /** The guard runs before the configuration check: a request missing a field
      gets 400 whatever the environment, and "not configured" needs a complete request. */
  lemma GuardBeforeConfiguration(req: ContactRequest, env: Env, env': Env)
    ensures !HasRequiredFields(req) ==> Post(Some(req), env).response == Post(Some(req), env').response == MissingFields
    ensures Post(Some(req), env).response == NotConfigured ==> HasRequiredFields(req)
  {
  }

  /** The subject of the e-mail is the heading its template renders. */
  lemma SubjectIsTemplateHeading(req: ContactRequest, env: Env)
    requires HasRequiredFields(req)
    ensures ContactEmail(req, env).subject == Render(ContactEmail(req, env).template).heading
  {
  }
}
