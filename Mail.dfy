/** What the two route handlers share: the environment they run in (the
    provider's API key and addresses from environment variables, and what a
    send returns), the e-mail they hand to the provider, and the JSON
    responses they produce. The provider itself and `NextResponse` are not
    modelled; a handler's result records its response and the e-mail it
    handed over, if any. */
module Mail {
  import opened JsValues
  import opened EmailTemplate

  /** What the provider's `emails.send` does with an e-mail. */
  datatype SendResult =
    | Delivered(data: string)       // `{ data }` with no `error`
    | ProviderError(error: string)  // `{ error }`
    | SendThrew                     // the awaited call throws

  /** RESEND_API_KEY, RESEND_FROM_EMAIL, RESEND_TO_EMAIL and the provider's verdict. */
  datatype Env = Env(apiKey: Field, fromEmail: Field, toEmail: Field, send: SendResult)

  /** `resend` is created only when the API key is set and non-empty. */
  predicate Configured(env: Env) {
    Truthy(env.apiKey)
  }

  const DefaultTo := "your-email@example.com"

  datatype Email = Email(from: string, to: seq<string>, replyTo: string, subject: string, template: TemplateProps)

  datatype Json = ErrorJson(error: string) | MessageJson(message: string, data: string)

  datatype Response = Response(status: int, json: Json)

  /** The handler's response and the e-mail it handed to the provider, if it got that far. */
  datatype Handled = Handled(response: Response, sent: Option<Email>)

  const InternalError := Response(500, ErrorJson("Internal server error"))
  const MissingFields := Response(400, ErrorJson("Missing required fields"))
  const NotConfigured := Response(500, ErrorJson("Email service not configured"))

  /** The recipient list: RESEND_TO_EMAIL or the placeholder address. */
  function Recipients(env: Env): seq<string> {
    [Or(env.toEmail, DefaultTo)]
  }

  /** Hands `email` to the provider and maps what it returns to a response:
      a provider error to 400 with `failure`, a throw to 500, delivery to 200 with `success`. */
  function Dispatch(email: Email, env: Env, failure: string, success: string): (h: Handled)
    ensures h.sent == Some(email)
    ensures env.send.ProviderError? <==> h.response == Response(400, ErrorJson(failure))
    ensures env.send.SendThrew? <==> h.response == InternalError
    ensures env.send.Delivered? <==> h.response.status == 200
    ensures env.send.Delivered? ==> h.response.json == MessageJson(success, env.send.data)
  {
    match env.send
    case ProviderError(_) => Handled(Response(400, ErrorJson(failure)), Some(email))
    case SendThrew => Handled(InternalError, Some(email))
    case Delivered(data) => Handled(Response(200, MessageJson(success, data)), Some(email))
  }
}
