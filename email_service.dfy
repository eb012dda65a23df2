/**
  The browser-side confirmation mail: `sendConfirmationEmail` builds a
  multipart form of ordered key/value fields for a form-handling endpoint
  chosen by the form type, posts it, and reports whether the response was
  ok; `getAutoResponseTemplate` picks the auto-response body.
 */
module EmailService {
  import opened JsValues

  datatype FormType = Newsletter | Contact

  /** `EmailData`: every field but `email` and `formType` may be `undefined`. */
  datatype EmailData = EmailData(
    email: string,
    name: Option<string>,
    subject: Option<string>,
    message: Option<string>,
    formType: FormType,
    adminEmail: Option<string>)

  const AdminEmail := "calvezgobbi@gmail.com"
  const NewsletterEndpoint := "https://formspree.io/f/xandgakg"
  const ContactEndpoint := "https://formspree.io/f/meolbvwe"
  const WebsiteUrl := "https://dongobbi.github.io/transLuga/"

  /**
    The auto-response body, reduced to what varies in it: which of the two
    templates, the name in its greeting, and the contact address it shows
    (only the newsletter template shows one, and it is written into the
    template rather than taken from the data).
   */
  datatype Template = Template(kind: FormType, greetingName: string, contactAddress: Option<string>)

  /** `getAutoResponseTemplate`: `name` defaults to "there" only when it is `undefined`. */
  function AutoResponseTemplate(data: EmailData): (t: Template)
    ensures t.kind == data.formType
    ensures data.name.None? ==> t.greetingName == "there"
    ensures data.name.Some? ==> t.greetingName == data.name.value
    ensures t.contactAddress.Some? <==> data.formType == Newsletter
    ensures t.contactAddress.Some? ==> t.contactAddress.value == AdminEmail
  {
    var name := Default(data.name, "there");
    Template(data.formType, name, if data.formType == Newsletter then Some(AdminEmail) else None)
  }

  /** The template does not depend on the `adminEmail` override, the subject or the message. */
  lemma TemplateIgnoresOverrides(data: EmailData, adminEmail: Option<string>, subject: Option<string>, message: Option<string>)
    ensures AutoResponseTemplate(data.(adminEmail := adminEmail, subject := subject, message := message)) == AutoResponseTemplate(data)
  {
  }

  /** An empty name is defined, so it is greeted as it is rather than as "there". */
  lemma EmptyNameNotDefaulted(data: EmailData)
    requires data.name == Some("")
    ensures AutoResponseTemplate(data).greetingName == ""
  {
  }

  /** A value appended to the form data: plain text or the auto-response body. */
  datatype FieldValue = Text(text: string) | Html(template: Template)

  datatype Entry = Entry(key: string, value: FieldValue)

  /** The keys of the form data, in append order. */
  function Keys(body: seq<Entry>): (ks: seq<string>)
    ensures |ks| == |body|
    ensures forall i :: 0 <= i < |body| ==> ks[i] == body[i].key
  {
    seq(|body|, i requires 0 <= i < |body| => body[i].key)
  }

  /** `formData.get(key)`: the first value appended under `key`. */
  function Lookup(body: seq<Entry>, key: string): (v: Option<FieldValue>)
    ensures v.None? <==> key !in Keys(body)
  {
    if body == [] then None
    else if body[0].key == key then Some(body[0].value)
    else
      assert Keys(body) == [body[0].key] + Keys(body[1..]);
      Lookup(body[1..], key)
  }

  /** Where keys are distinct, looking up the key of an entry finds that entry's value. */
  lemma {:induction false} LookupUnique(body: seq<Entry>, i: nat)
    requires NoDuplicates(Keys(body)) && i < |body|
    ensures Lookup(body, body[i].key) == Some(body[i].value)
  {
    if i > 0 {
      assert Keys(body)[0] != Keys(body)[i];
      assert Keys(body[1..]) == Keys(body)[1..];
      LookupUnique(body[1..], i - 1);
    }
  }

  /** The keys every confirmation request carries, in order; `name` only when it is truthy. */
  function ExpectedKeys(nameTruthy: bool): seq<string>
  {
    if nameTruthy then ["email", "name", "message", "_autoresponse", "_subject", "_cc", "_replyto", "_website"]
    else ["email", "message", "_autoresponse", "_subject", "_cc", "_replyto", "_website"]
  }

  /** No key is appended twice, so each `formData.get` sees the one value appended under it. */
  lemma ExpectedKeysDistinct(nameTruthy: bool)
    ensures NoDuplicates(ExpectedKeys(nameTruthy))
  {
  }

  /** `message`, defaulted by form type when absent or empty. */
  function MessageContent(data: EmailData): string
  {
    OrElse(data.message, if data.formType == Newsletter then "Newsletter subscription" else "Contact form submission")
  }

  /** `_subject`, defaulted by form type when absent or empty. */
  function EmailSubject(data: EmailData): string
  {
    OrElse(data.subject,
      if data.formType == Newsletter then "Thank you for subscribing to Transluga Newsletter!"
      else "We received your message - Transluga")
  }

  /** The `FormData.append` sequence of `sendConfirmationEmail`. */
  method BuildFormData(data: EmailData) returns (body: seq<Entry>)
    ensures Keys(body) == ExpectedKeys(Truthy(data.name))
    ensures body[0].value == Text(data.email)
    ensures Truthy(data.name) ==> body[1].value == Text(data.name.value)
    ensures var o := if Truthy(data.name) then 1 else 0;
      body[o + 1].value == Text(MessageContent(data)) &&
      body[o + 2].value == Html(AutoResponseTemplate(data)) &&
      body[o + 3].value == Text(EmailSubject(data)) &&
      body[o + 4].value == Text(OrElse(data.adminEmail, AdminEmail)) &&
      body[o + 5].value == Text(data.email) &&
      body[o + 6].value == Text(WebsiteUrl)
  {
    body := [];
    body := body + [Entry("email", Text(data.email))];
    if Truthy(data.name) {
      body := body + [Entry("name", Text(data.name.value))];
    }
    body := body + [Entry("message", Text(MessageContent(data)))];
    body := body + [Entry("_autoresponse", Html(AutoResponseTemplate(data)))];
    body := body + [Entry("_subject", Text(EmailSubject(data)))];
    body := body + [Entry("_cc", Text(OrElse(data.adminEmail, AdminEmail)))];
    body := body + [Entry("_replyto", Text(data.email))];
    body := body + [Entry("_website", Text(WebsiteUrl))];
    var o := if Truthy(data.name) then 1 else 0;
    ghost var ks := Keys(body);
    assert ks[0] == "email" && ks[o + 1] == "message" && ks[o + 2] == "_autoresponse";
    assert ks[o + 3] == "_subject" && ks[o + 4] == "_cc" && ks[o + 5] == "_replyto" && ks[o + 6] == "_website";
    assert Truthy(data.name) ==> ks[1] == "name";
  }

  /** The fetch of the endpoint: a response with or without `ok`, or a thrown error. */
  datatype FetchOutcome = Ok | NotOk(statusText: string) | Threw

  /** The POST the function issues. */
  datatype Request = Request(endpoint: string, body: seq<Entry>)

  /**
    `sendConfirmationEmail`. `response` is what the fetch of the returned
    request yields; the result is `true` exactly when that response is ok,
    and every failure becomes `false` rather than an exception.
   */
  method SendConfirmationEmail(data: EmailData, response: FetchOutcome) returns (request: Request, sent: bool)
    ensures request.endpoint == if data.formType == Newsletter then NewsletterEndpoint else ContactEndpoint
    ensures Keys(request.body) == ExpectedKeys(Truthy(data.name))
    ensures Lookup(request.body, "email") == Some(Text(data.email))
    ensures Truthy(data.name) ==> Lookup(request.body, "name") == Some(Text(data.name.value))
    ensures Lookup(request.body, "message") == Some(Text(MessageContent(data)))
    ensures Lookup(request.body, "_autoresponse") == Some(Html(AutoResponseTemplate(data)))
    ensures Lookup(request.body, "_subject") == Some(Text(EmailSubject(data)))
    ensures Lookup(request.body, "_cc") == Some(Text(OrElse(data.adminEmail, AdminEmail)))
    ensures Lookup(request.body, "_replyto") == Lookup(request.body, "email")
    ensures Lookup(request.body, "_website") == Some(Text(WebsiteUrl))
    ensures sent <==> response == Ok
  {
    var endpoint := if data.formType == Newsletter then NewsletterEndpoint else ContactEndpoint;
    var body := BuildFormData(data);
    request := Request(endpoint, body);
    var o := if Truthy(data.name) then 1 else 0;
    ExpectedKeysDistinct(Truthy(data.name));
    LookupUnique(body, 0);
    if Truthy(data.name) {
      LookupUnique(body, 1);
    }
    LookupUnique(body, o + 1);
    LookupUnique(body, o + 2);
    LookupUnique(body, o + 3);
    LookupUnique(body, o + 4);
    LookupUnique(body, o + 5);
    LookupUnique(body, o + 6);
    match response
    case Ok =>
      sent := true;
    case NotOk(_) =>
      sent := false;
    case Threw =>
      sent := false;
  }
}
