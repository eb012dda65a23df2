/**
  The server-side document triggers: when a subscriber or contact document
  is created, decide whether mail can be sent (valid data, a transporter
  built from the runtime email configuration) and send a confirmation to
  the visitor and then a notification to the company, stopping at the
  first failed send. Sends are recorded, in order, in a mailer's outbox.
 */
module CloudFunctions {
  import opened JsValues

  /** `functions.config().email` */
  datatype EmailConfig = EmailConfig(user: Option<string>, password: Option<string>, company: Option<string>)

  /** What reading `functions.config()` gives: a configuration whose `email` may be absent, or a throw. */
  datatype RuntimeConfig = ConfigThrows | RuntimeConfig(email: Option<EmailConfig>)

  /** A gmail transporter authenticated with the configured user and password. */
  datatype Transporter = Transporter(user: string, password: string)

  /** `getTransporter`: `null` unless the email configuration and its user and password are all present. */
  function GetTransporter(cfg: RuntimeConfig): (t: Option<Transporter>)
    ensures t.Some? <==>
      cfg.RuntimeConfig? && cfg.email.Some? && Truthy(cfg.email.value.user) && Truthy(cfg.email.value.password)
    ensures t.Some? ==> t.value.user == cfg.email.value.user.value && t.value.password == cfg.email.value.password.value
  {
    match cfg
    case ConfigThrows => None
    case RuntimeConfig(email) =>
      if email.None? || !Truthy(email.value.user) || !Truthy(email.value.password) then None
      else Some(Transporter(email.value.user.value, email.value.password.value))
  }

  const DefaultCompanyEmail := "calvezgobbi@gmail.com"

  /** `getCompanyEmail`: the configured company address if truthy, else the default, also when reading throws. */
  function GetCompanyEmail(cfg: RuntimeConfig): (address: string)
    ensures address != ""
    ensures cfg.RuntimeConfig? && cfg.email.Some? && Truthy(cfg.email.value.company) ==>
      address == cfg.email.value.company.value
    ensures !(cfg.RuntimeConfig? && cfg.email.Some? && Truthy(cfg.email.value.company)) ==>
      address == DefaultCompanyEmail
  {
    match cfg
    case ConfigThrows => DefaultCompanyEmail
    case RuntimeConfig(email) =>
      if email.Some? then OrElse(email.value.company, DefaultCompanyEmail) else DefaultCompanyEmail
  }

  /** The company address does not depend on the transporter credentials. */
  lemma CompanyEmailIgnoresCredentials(e: EmailConfig, user: Option<string>, password: Option<string>)
    ensures GetCompanyEmail(RuntimeConfig(Some(e.(user := user, password := password)))) ==
      GetCompanyEmail(RuntimeConfig(Some(e)))
  {
  }

  /** `snap.data()` of a created document, with the fields the triggers read. */
  datatype Doc = Doc(
    email: Option<string>,
    name: Option<string>,
    service: Option<string>,
    sourceLanguage: Option<string>,
    targetLanguage: Option<string>,
    message: Option<string>,
    skipEmailConfirmation: bool)

  /** A mail's HTML body, reduced to what it is built from. */
  datatype MailBody =
    | SubscriberWelcome
    | SubscriberNotice(subscriberEmail: string)
    | ContactThanks(name: string, service: string, sourceLanguage: string, targetLanguage: string)
    | ContactNotice(name: string, email: string, service: string, sourceLanguage: string, targetLanguage: string, message: string)

  datatype Mail = Mail(fromName: string, fromAddress: string, to: string, subject: string, body: MailBody)

  /** The mail transport: every attempted send is recorded; `fails` says whether it rejects. */
  class Mailer {
    var outbox: seq<Mail>

    constructor ()
      ensures outbox == []
    {
      outbox := [];
    }

    method SendMail(mail: Mail, fails: bool) returns (ok: bool)
      modifies this
      ensures outbox == old(outbox) + [mail]
      ensures ok == !fails
    {
      outbox := outbox + [mail];
      ok := !fails;
    }
  }

  const NotSpecified := "Not specified"

  /** The newsletter trigger reaches its sends: valid data, no skip flag, and a transporter. */
  predicate NewsletterProceeds(data: Option<Doc>, cfg: RuntimeConfig)
  {
    data.Some? && Truthy(data.value.email) && !data.value.skipEmailConfirmation && GetTransporter(cfg).Some?
  }

  /** The mails the newsletter trigger attempts, in order. */
  function NewsletterMails(data: Option<Doc>, cfg: RuntimeConfig, firstFails: bool): (mails: seq<Mail>)
    ensures |mails| <= 2
    ensures mails == [] <==> !NewsletterProceeds(data, cfg)
    ensures |mails| == 2 <==> NewsletterProceeds(data, cfg) && !firstFails
    ensures mails != [] ==> mails[0].to == data.value.email.value && mails[0].fromAddress == GetCompanyEmail(cfg)
    ensures |mails| == 2 ==> mails[1].to == GetCompanyEmail(cfg) && mails[1].fromAddress == GetCompanyEmail(cfg)
  {
    if !NewsletterProceeds(data, cfg) then []
    else
      var subscriberEmail := data.value.email.value;
      var company := GetCompanyEmail(cfg);
      var welcome := Mail("Transluga", company, subscriberEmail, "Welcome to Transluga Newsletter", SubscriberWelcome);
      var notice := Mail("Transluga System", company, company, "New Newsletter Subscriber", SubscriberNotice(subscriberEmail));
      if firstFails then [welcome] else [welcome, notice]
  }

  /** A skip flag on the document means no mail at all. */
  lemma SkipFlagSendsNothing(data: Doc, cfg: RuntimeConfig, firstFails: bool)
    requires data.skipEmailConfirmation
    ensures NewsletterMails(Some(data), cfg, firstFails) == []
  {
  }

  /** `sendNewsletterConfirmation`; `firstFails` and `secondFails` say which sends reject. Resolves to `null` in every case. */
  method SendNewsletterConfirmation(data: Option<Doc>, cfg: RuntimeConfig, mailer: Mailer, firstFails: bool, secondFails: bool)
    modifies mailer
    ensures mailer.outbox == old(mailer.outbox) + NewsletterMails(data, cfg, firstFails)
  {
    if data.None? || !Truthy(data.value.email) {
      return;
    }
    if data.value.skipEmailConfirmation {
      return;
    }
    var subscriberEmail := data.value.email.value;
    var transporter := GetTransporter(cfg);
    var company := GetCompanyEmail(cfg);
    if transporter.None? {
      return;
    }
    var ok := mailer.SendMail(Mail("Transluga", company, subscriberEmail, "Welcome to Transluga Newsletter", SubscriberWelcome), firstFails);
    if !ok {
      return;
    }
    ok := mailer.SendMail(Mail("Transluga System", company, company, "New Newsletter Subscriber", SubscriberNotice(subscriberEmail)), secondFails);
  }

  /** The contact trigger reaches its sends: valid data and a transporter; the skip flag is not read. */
  predicate ContactProceeds(data: Option<Doc>, cfg: RuntimeConfig)
  {
    data.Some? && Truthy(data.value.email) && GetTransporter(cfg).Some?
  }

  /** The mails the contact trigger attempts, in order. */
  function ContactMails(data: Option<Doc>, cfg: RuntimeConfig, firstFails: bool): (mails: seq<Mail>)
    ensures |mails| <= 2
    ensures mails == [] <==> !ContactProceeds(data, cfg)
    ensures |mails| == 2 <==> ContactProceeds(data, cfg) && !firstFails
    ensures mails != [] ==> mails[0].to == data.value.email.value
    ensures mails != [] ==> mails[0].body.ContactThanks? && mails[0].body.name == Default(data.value.name, "Customer")
    ensures mails != [] ==> mails[0].body.service == OrElse(data.value.service, NotSpecified)
    ensures |mails| == 2 ==> mails[1].to == GetCompanyEmail(cfg)
    ensures |mails| == 2 ==> mails[1].body.ContactNotice? && mails[1].body.message == Default(data.value.message, "")
  {
    if !ContactProceeds(data, cfg) then []
    else
      var d := data.value;
      var name := Default(d.name, "Customer");
      var message := Default(d.message, "");
      var service := OrElse(d.service, NotSpecified);
      var sourceLanguage := OrElse(d.sourceLanguage, NotSpecified);
      var targetLanguage := OrElse(d.targetLanguage, NotSpecified);
      var company := GetCompanyEmail(cfg);
      var thanks := Mail("Transluga", company, d.email.value, "We've Received Your Message",
        ContactThanks(name, service, sourceLanguage, targetLanguage));
      var notice := Mail("Transluga System", company, company, "New Contact Form Submission",
        ContactNotice(name, d.email.value, service, sourceLanguage, targetLanguage, message));
      if firstFails then [thanks] else [thanks, notice]
  }

  /** The contact trigger sends the same mails whatever the skip flag says. */
  lemma ContactIgnoresSkipFlag(data: Doc, cfg: RuntimeConfig, firstFails: bool, skip: bool)
    ensures ContactMails(Some(data.(skipEmailConfirmation := skip)), cfg, firstFails) == ContactMails(Some(data), cfg, firstFails)
  {
  }

  /** An empty name is defined, so the contact is greeted by it rather than as "Customer". */
  lemma EmptyNameNotDefaulted(data: Doc, cfg: RuntimeConfig)
    requires data.name == Some("") && ContactProceeds(Some(data), cfg)
    ensures ContactMails(Some(data), cfg, false)[0].body.name == ""
  {
  }

  /** `sendContactConfirmation`; `firstFails` and `secondFails` say which sends reject. Resolves to `null` in every case. */
  method SendContactConfirmation(data: Option<Doc>, cfg: RuntimeConfig, mailer: Mailer, firstFails: bool, secondFails: bool)
    modifies mailer
    ensures mailer.outbox == old(mailer.outbox) + ContactMails(data, cfg, firstFails)
  {
    if data.None? || !Truthy(data.value.email) {
      return;
    }
    var d := data.value;
    var name := Default(d.name, "Customer");
    var email := d.email.value;
    var message := Default(d.message, "");
    var transporter := GetTransporter(cfg);
    var company := GetCompanyEmail(cfg);
    if transporter.None? {
      return;
    }
    var service := OrElse(d.service, NotSpecified);
    var sourceLanguage := OrElse(d.sourceLanguage, NotSpecified);
    var targetLanguage := OrElse(d.targetLanguage, NotSpecified);
    var ok := mailer.SendMail(Mail("Transluga", company, email, "We've Received Your Message",
      ContactThanks(name, service, sourceLanguage, targetLanguage)), firstFails);
    if !ok {
      return;
    }
    ok := mailer.SendMail(Mail("Transluga System", company, company, "New Contact Form Submission",
      ContactNotice(name, email, service, sourceLanguage, targetLanguage, message)), secondFails);
  }
}
