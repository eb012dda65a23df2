/**
  The two document collections the site writes to, `newsletter-subscribers`
  and `contact-submissions`, as growing sequences of records. The insert
  (`addDoc`) is a call into the database service: whether it is accepted,
  and the id it returns, come in as an `InsertOutcome`.
 */
module DocumentStore {
  import ContactPage

  /** A `newsletter-subscribers` document: the email field only. */
  datatype Subscriber = Subscriber(email: string)

  /** A `contact-submissions` document: the seven form fields plus the submission time. */
  datatype ContactSubmission = ContactSubmission(form: ContactPage.FormData, submittedAt: int)

  /** What `addDoc` does with one document: stores it under a new id, or rejects it. */
  datatype InsertOutcome = Accepted(id: string) | Rejected(error: string)

  class Database {
    var newsletterSubscribers: seq<Subscriber>
    var contactSubmissions: seq<ContactSubmission>

    constructor (subscribers: seq<Subscriber>, submissions: seq<ContactSubmission>)
      ensures newsletterSubscribers == subscribers && contactSubmissions == submissions
    {
      newsletterSubscribers := subscribers;
      contactSubmissions := submissions;
    }

    /** `addDoc(collection(db, 'newsletter-subscribers'), record)` */
    method AddSubscriber(record: Subscriber, outcome: InsertOutcome)
      modifies this
      ensures outcome.Accepted? ==> newsletterSubscribers == old(newsletterSubscribers) + [record]
      ensures outcome.Rejected? ==> newsletterSubscribers == old(newsletterSubscribers)
      ensures contactSubmissions == old(contactSubmissions)
    {
      if outcome.Accepted? {
        newsletterSubscribers := newsletterSubscribers + [record];
      }
    }

    /** `addDoc(collection(db, 'contact-submissions'), record)` */
    method AddContactSubmission(record: ContactSubmission, outcome: InsertOutcome)
      modifies this
      ensures outcome.Accepted? ==> contactSubmissions == old(contactSubmissions) + [record]
      ensures outcome.Rejected? ==> contactSubmissions == old(contactSubmissions)
      ensures newsletterSubscribers == old(newsletterSubscribers)
    {
      if outcome.Accepted? {
        contactSubmissions := contactSubmissions + [record];
      }
    }
  }

  /** How many records of a collection carry the given email. */
  function CountEmail(subscribers: seq<Subscriber>, email: string): (n: nat)
    ensures n <= |subscribers|
    ensures n == 0 <==> Subscriber(email) !in subscribers
  {
    if subscribers == [] then 0
    else (if subscribers[0].email == email then 1 else 0) + CountEmail(subscribers[1..], email)
  }

  /** Appending records adds their counts. */
  lemma {:induction false} CountEmailAppend(a: seq<Subscriber>, b: seq<Subscriber>, email: string)
    ensures CountEmail(a + b, email) == CountEmail(a, email) + CountEmail(b, email)
  {
    if a == [] {
      assert a + b == b;
    } else {
      assert (a + b)[0] == a[0];
      assert (a + b)[1..] == a[1..] + b;
      CountEmailAppend(a[1..], b, email);
    }
  }
}
