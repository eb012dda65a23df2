/**
  `submitContactForm`: inserts the form fields and a timestamp into
  `contact-submissions` and resolves to the new document's id; it rejects
  when `db` is undefined, and passes an insert error on to its caller.
 */
module ContactService {
  import ContactPage
  import opened DocumentStore
  import NewsletterService
  import FirebaseConfig

  /** How the returned promise settles. */
  datatype SubmitResult = Submitted(id: string) | Thrown(error: string)

  const NotInitializedError := "Firebase database is not initialized"

  /**
    `submitContactForm`. `now` is `Timestamp.now()`; `insert` is what
    `addDoc` does with the record.
   */
  method SubmitContactForm(form: ContactPage.FormData, db: Database?, now: int, insert: InsertOutcome)
    returns (result: SubmitResult)
    modifies db
    ensures db == null ==> result == Thrown(NotInitializedError)
    ensures db != null && insert.Accepted? ==> result == Submitted(insert.id)
    ensures db != null && insert.Rejected? ==> result == Thrown(insert.error)
    ensures db != null ==>
      db.contactSubmissions == old(db.contactSubmissions) + (if insert.Accepted? then [ContactSubmission(form, now)] else [])
    ensures db != null ==> db.newsletterSubscribers == old(db.newsletterSubscribers)
  {
    if db == null {
      return Thrown(NotInitializedError);
    }
    db.AddContactSubmission(ContactSubmission(form, now), insert);
    match insert
    case Accepted(id) =>
      result := Submitted(id);
    case Rejected(error) =>
      result := Thrown(error);
  }

  /**
    The two services given the same rejected insert: the newsletter service
    swallows the error and resolves to `'mock-success'`, the contact service
    rejects with it, and neither stores anything.
   */
  method RejectedInsertHandling(email: string, form: ContactPage.FormData, env: FirebaseConfig.Env,
                                db: Database, now: int, error: string)
    returns (subscribed: NewsletterService.SubscribeResult, submitted: SubmitResult)
    modifies db
    ensures subscribed == NewsletterService.MockSuccess
    ensures submitted == Thrown(error)
    ensures db.newsletterSubscribers == old(db.newsletterSubscribers)
    ensures db.contactSubmissions == old(db.contactSubmissions)
  {
    subscribed := NewsletterService.AddNewsletterSubscriber(email, env, db, false, Rejected(error));
    submitted := SubmitContactForm(form, db, now, Rejected(error));
  }
}
