/**
  `addNewsletterSubscriber`: after a short delay, inserts `{ email }` into
  `newsletter-subscribers` when the availability check passes and `db` is
  defined, and otherwise, or when the insert fails, still reports success.
  It never rejects, and it does not look for an existing subscription.
 */
module NewsletterService {
  import opened FirebaseConfig
  import opened FirebaseFallback
  import opened DocumentStore

  /** The resolved value: the new document's id, `'mock-success'` or `'error-handled'`. */
  datatype SubscribeResult = DocumentId(id: string) | MockSuccess | ErrorHandled

  /**
    `addNewsletterSubscriber`. `delayRejected` says whether the awaited
    delay promise rejected (a `setTimeout` promise never does, so the outer
    `catch` is unreachable in practice); `insert` is what `addDoc` does
    when it is reached.
   */
  method AddNewsletterSubscriber(email: string, env: Env, db: Database?, delayRejected: bool, insert: InsertOutcome)
    returns (result: SubscribeResult)
    modifies db
    ensures result.DocumentId? <==> !delayRejected && IsFirebaseAvailable(env) && db != null && insert.Accepted?
    ensures result.DocumentId? ==> result.id == insert.id
    ensures result == ErrorHandled <==> delayRejected
    ensures db != null ==>
      db.newsletterSubscribers == old(db.newsletterSubscribers) + (if result.DocumentId? then [Subscriber(email)] else [])
    ensures db != null ==> db.contactSubmissions == old(db.contactSubmissions)
  {
    if delayRejected {
      return ErrorHandled;
    }
    if IsFirebaseAvailable(env) && db != null {
      db.AddSubscriber(Subscriber(email), insert);
      match insert
      case Accepted(id) =>
        return DocumentId(id);
      case Rejected(_) =>
    }
    return MockSuccess;
  }

  /** Subscribing the same address twice stores it twice: there is no existence check. */
  method SubscribeTwice(email: string, env: Env, db: Database, id1: string, id2: string)
    returns (first: SubscribeResult, second: SubscribeResult)
    requires IsFirebaseAvailable(env)
    modifies db
    ensures first == DocumentId(id1) && second == DocumentId(id2)
    ensures db.newsletterSubscribers == old(db.newsletterSubscribers) + [Subscriber(email), Subscriber(email)]
    ensures CountEmail(db.newsletterSubscribers, email) == CountEmail(old(db.newsletterSubscribers), email) + 2
  {
    first := AddNewsletterSubscriber(email, env, db, false, Accepted(id1));
    second := AddNewsletterSubscriber(email, env, db, false, Accepted(id2));
    assert old(db.newsletterSubscribers) + [Subscriber(email)] + [Subscriber(email)]
      == old(db.newsletterSubscribers) + [Subscriber(email), Subscriber(email)];
    CountEmailAppend(old(db.newsletterSubscribers), [Subscriber(email), Subscriber(email)], email);
  }
}
