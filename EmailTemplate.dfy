/** components/EmailTemplate.tsx: the notification e-mail body as the text
    sections it renders. Styling is not modelled. */
module EmailTemplate {
  import opened JsValues

  /** The props the route handlers pass to the template. */
  datatype TemplateProps = TemplateProps(
    firstName: string,
    lastName: Field,
    email: string,
    service: Field,
    message: string,
    formType: Field)

  /** The text of the rendered e-mail, section by section. */
  datatype Sections = Sections(
    heading: string,
    nameLine: string,
    emailLine: string,
    serviceLine: Option<string>,
    bodyTitle: string,
    body: string,
    footer: seq<string>)

  const ContactHeading := "New Contact Form Submission"
  const OrderHeading := "New Order Received"

  /** The form type after the `formType = 'contact'` default for an absent prop. */
  function EffectiveFormType(formType: Field): string {
    formType.GetOr("contact")
  }

  const FooterNote := "This email was sent from your portfolio website contact form."
  const ReplyPrefix := "Reply directly to this email to respond to "

  /** The rendered text of the template. */
  function Render(p: TemplateProps): (r: Sections)
    ensures r.heading == ContactHeading <==> (p.formType.None? || p.formType.value == "contact")
    ensures r.heading != ContactHeading ==> r.heading == OrderHeading
    ensures r.bodyTitle == "Message:" <==> r.heading == ContactHeading
    ensures r.bodyTitle != "Message:" ==> r.bodyTitle == "Order Details:"
    ensures r.nameLine == "Name: " + p.firstName + " " + Or(p.lastName, "")
    ensures r.emailLine == "Email: " + p.email
    ensures r.serviceLine.Some? <==> Truthy(p.service)
    ensures r.serviceLine.Some? ==> r.serviceLine.value == "Service/Platform: " + p.service.value
    ensures r.body == p.message
    ensures |r.footer| == 2 && r.footer[0] == FooterNote && r.footer[1] == ReplyPrefix + p.firstName + "."
  {
    var isContact := EffectiveFormType(p.formType) == "contact";
    Sections(
      heading := if isContact then ContactHeading else OrderHeading,
      nameLine := "Name: " + p.firstName + " " + Or(p.lastName, ""),
      emailLine := "Email: " + p.email,
      serviceLine := if Truthy(p.service) then Some("Service/Platform: " + p.service.value) else None,
      bodyTitle := if isContact then "Message:" else "Order Details:",
      body := p.message,
      footer := [FooterNote, ReplyPrefix + p.firstName + "."])
  }
}
