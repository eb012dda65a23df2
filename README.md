# Transluga widgets and lead submission, modelled in Dafny

Transluga is a translation-agency website. This project models the parts of
it that hold logic:

- the interactive widgets on its pages:
  - the African-language quiz;
  - the testimonial carousel;
  - the case-study grid with its industry tabs;
  - the quote calculator;
  - the phrase-translation demo;
  - the hoverable language map;
  - the contact page's form state.
- the lead-submission layer:
  - the browser-side confirmation mail sent through a form-handling endpoint;
  - the Firebase configuration and the check that it is available;
  - the newsletter and contact services, which write to the two document collections;
  - the server-side triggers that mail a confirmation and a company notice when a document is created.

There is one module per source file, in one `.dfy` file each. `js_values.dfy`
holds the JavaScript notions they share:

- `undefined` as `Option.None`;
- string truthiness;
- the `||` default and the destructuring default;
- ASCII `toLowerCase`.

`document_store.dfy` models the two Firestore collections as a `Database`
class. Its fields are the `newsletter-subscribers` and `contact-submissions`
lists. Each insert appends one record, or nothing when the store rejects it.

Calls into code outside the model become parameters that say what those calls
did:

- `InsertOutcome` for `addDoc`;
- `FetchOutcome` for `fetch`;
- failure flags for `transporter.sendMail`;
- `initThrows` for Firebase initialisation;
- `delayRejected` for the awaited timer promises;
- `RuntimeConfig.ConfigThrows` for `functions.config()`;
- `now` for `Timestamp.now()`.

React state becomes classes whose fields the handlers update:

- `Quiz`;
- `Carousel`;
- `MapView`;
- `Demo`;
- `Page`;
- `Database`;
- `Mailer`.

The case-study grid keeps its single tab as a `View` value.

Where the code and its design description differ, the model follows the code:

- `addNewsletterSubscriber` does not look for an existing subscription before inserting. Subscribing twice stores two records (`NewsletterService.SubscribeTwice`).
- The newsletter service never reports a failure. A rejected insert, a missing configuration and a missing database all resolve to `'mock-success'`. A rejected delay resolves to `'error-handled'`. Only the contact service passes an insert error on (`ContactService.RejectedInsertHandling`).
- The contact page does not call either service. Its submit handler waits on a timer and always reaches the success state. The error branch exists but cannot be reached (`ContactPage.Page.HandleSubmit`).
- The contact trigger does not read `skipEmailConfirmation`. Only the newsletter trigger does (`CloudFunctions.ContactIgnoresSkipFlag`).

## Model

| member | source | states |
|---|---|---|
| LanguageQuiz.QuestionsWellFormed | transluga-app/src/components/LanguageQuiz.tsx:13-84 | the quiz has ten questions, numbered 1 to 10, each with four options and a correct answer that indexes one of them |
| LanguageQuiz.Tier | transluga-app/src/components/LanguageQuiz.tsx:127-148 | the result tier (0 to 3) counts the thresholds 90 %, 70 % and 50 % that the score percentage falls short of |
| LanguageQuiz.TierMonotone | transluga-app/src/components/LanguageQuiz.tsx:127-148 | a higher score never gives a lower tier |
| LanguageQuiz.ScoreMessage | transluga-app/src/components/LanguageQuiz.tsx:127-139 | the message shown is the message of the score's tier |
| LanguageQuiz.ScoreColor | transluga-app/src/components/LanguageQuiz.tsx:141-148 | the colour shown is the colour of the score's tier |
| LanguageQuiz.MessageAndColorAgree | transluga-app/src/components/LanguageQuiz.tsx:127-148 | the message and the colour always come from the same tier |
| LanguageQuiz.Quiz.constructor | transluga-app/src/components/LanguageQuiz.tsx:87-92 | the quiz starts on question 0 with no answer, no score, not started and not completed, satisfying the invariant |
| LanguageQuiz.Quiz.SelectOption | transluga-app/src/components/LanguageQuiz.tsx:94-103 | a choice made once the answer is shown changes nothing; otherwise it is recorded, the answer is revealed, and the score rises by one exactly when the choice is correct; the score stays at most the number of answered questions |
| LanguageQuiz.Quiz.NextQuestion | transluga-app/src/components/LanguageQuiz.tsx:105-113 | after a revealed answer, advances to the next question with the answer cleared, or completes the quiz on the last question; the score is kept |
| LanguageQuiz.Quiz.Restart | transluga-app/src/components/LanguageQuiz.tsx:115-121 | back to the first question with no answer, no score and not completed; the started flag is kept |
| LanguageQuiz.Quiz.Start | transluga-app/src/components/LanguageQuiz.tsx:123-125 | sets only the started flag |
| LanguageQuiz.FinalScore | transluga-app/src/components/LanguageQuiz.tsx:176-184 | a completed quiz has answered every question, and the score it shows is at most the number of questions |
| TestimonialCarousel.Next | transluga-app/src/components/TestimonialCarousel.tsx:41 | the next index stays in range and wraps from the last testimonial to the first |
| TestimonialCarousel.Previous | transluga-app/src/components/TestimonialCarousel.tsx:46 | the previous index stays in range and wraps from the first testimonial to the last |
| TestimonialCarousel.PreviousAfterNext | transluga-app/src/components/TestimonialCarousel.tsx:39-47 | previous undoes next |
| TestimonialCarousel.NextAfterPrevious | transluga-app/src/components/TestimonialCarousel.tsx:39-47 | next undoes previous |
| TestimonialCarousel.AdvanceIsOffset | transluga-app/src/components/TestimonialCarousel.tsx:29-31 | k autoplay ticks or next clicks from index i land on (i + k) mod n |
| TestimonialCarousel.FullCycle | transluga-app/src/components/TestimonialCarousel.tsx:29-31 | n steps forward return to the starting testimonial |
| TestimonialCarousel.Carousel.constructor | transluga-app/src/components/TestimonialCarousel.tsx:21-22 | starts on the first of a non-empty list with autoplay on |
| TestimonialCarousel.Carousel.Current | transluga-app/src/components/TestimonialCarousel.tsx:64 | the testimonial displayed is one of the list's |
| TestimonialCarousel.Carousel.AutoplayTick | transluga-app/src/components/TestimonialCarousel.tsx:25-37 | while autoplay is on, a tick moves to the next testimonial and autoplay stays on |
| TestimonialCarousel.Carousel.GoToNext | transluga-app/src/components/TestimonialCarousel.tsx:39-42 | moves to the next testimonial and switches autoplay off |
| TestimonialCarousel.Carousel.GoToPrevious | transluga-app/src/components/TestimonialCarousel.tsx:44-47 | moves to the previous testimonial and switches autoplay off |
| TestimonialCarousel.Carousel.GoToSlide | transluga-app/src/components/TestimonialCarousel.tsx:49-52 | an indicator shows exactly its testimonial and switches autoplay off |
| TestimonialCarousel.NextThenPrevious | transluga-app/src/components/TestimonialCarousel.tsx:39-47 | next then previous returns to the same testimonial, with autoplay off |
| CaseStudies.FilterByIndustry | transluga-app/src/components/CaseStudies.tsx:90 | keeps exactly the case studies whose lowercased industry equals the tab, and never grows the list |
| CaseStudies.FilterAppend | transluga-app/src/components/CaseStudies.tsx:90 | filtering distributes over concatenation, so it keeps the original order |
| CaseStudies.Filtered | transluga-app/src/components/CaseStudies.tsx:88-90 | the "all" tab keeps every case study; any other tab keeps exactly those of its industry |
| CaseStudies.Displayed | transluga-app/src/components/CaseStudies.tsx:92-94 | the displayed list is a prefix of the filtered list: all of it without a truthy limit, else the first `limit` (a negative limit drops that many from the end) |
| CaseStudies.ViewAllIffTruncated | transluga-app/src/components/CaseStudies.tsx:168 | with a positive limit, the "View all" link appears exactly when some filtered case study is not displayed |
| CaseStudies.Distinct | transluga-app/src/components/CaseStudies.tsx:96 | `Array.from(new Set(...))` has no duplicates and the same elements as its input |
| CaseStudies.DistinctPrefix | transluga-app/src/components/CaseStudies.tsx:96 | the distinct elements of a prefix are a prefix of the distinct elements (first-occurrence order) |
| CaseStudies.DistinctOfDistinct | transluga-app/src/components/CaseStudies.tsx:96 | a list without duplicates is returned as it is |
| CaseStudies.LowerIndustries | transluga-app/src/components/CaseStudies.tsx:96 | each entry is the lowercased industry of the case study at the same position |
| CaseStudies.Industries | transluga-app/src/components/CaseStudies.tsx:96-97 | the tabs are "all", then the distinct lowercased industries in order of first occurrence (`Distinct` of the lowercased list), none twice, and exactly those of the case studies |
| CaseStudies.IndustryTabsNonEmpty | transluga-app/src/components/CaseStudies.tsx:96-106 | every industry tab selects at least one case study |
| CaseStudies.TabLabel | transluga-app/src/components/CaseStudies.tsx:113 | the label upper-cases the first character and keeps the rest |
| CaseStudies.LabelLowersToTab | transluga-app/src/components/CaseStudies.tsx:113 | a label differs from its tab only in case |
| CaseStudies.InitialView | transluga-app/src/components/CaseStudies.tsx:23 | the initial tab shows every case study |
| CaseStudies.ClickTab | transluga-app/src/components/CaseStudies.tsx:106 | clicking a tab selects exactly that tab |
| CaseStudies.Shown | transluga-app/src/components/CaseStudies.tsx:88-120 | the grid shows a prefix of the active tab's case studies |
| QuoteCalculator.InitialPrice | transluga-app/src/components/QuoteCalculator.tsx:28-48 | the initial inputs (500 general words, uncommon target, standard timeline, no certification) price at 52 |
| QuoteCalculator.Price | transluga-app/src/components/QuoteCalculator.tsx:37-48 | with a non-negative word count, the total is at least the certification fee when certification is chosen |
| QuoteCalculator.SourceLanguageIrrelevant | transluga-app/src/components/QuoteCalculator.tsx:38-46 | the source language never changes the price |
| QuoteCalculator.CertificationAddsFee | transluga-app/src/components/QuoteCalculator.tsx:38-46 | certification adds exactly the fee |
| QuoteCalculator.NoWordsOnlyFee | transluga-app/src/components/QuoteCalculator.tsx:38-46 | with no words, the price is the fee or zero |
| QuoteCalculator.MultipliersOrdered | transluga-app/src/components/QuoteCalculator.tsx:11-21 | every multiplier is at least 1, and the tables grow with language rarity and with timeline speed |
| QuoteCalculator.PriceMonotone | transluga-app/src/components/QuoteCalculator.tsx:4-48 | more words, a rarer target language or a faster timeline never lower the price |
| QuoteCalculator.TrimStart | transluga-app/src/components/QuoteCalculator.tsx:80 | drops exactly the leading whitespace |
| QuoteCalculator.DigitPrefix | transluga-app/src/components/QuoteCalculator.tsx:80 | the longest prefix made of decimal digits |
| QuoteCalculator.ParseInt | transluga-app/src/components/QuoteCalculator.tsx:80 | `parseInt` gives NaN exactly when, after leading whitespace and an optional sign, no digit follows |
| QuoteCalculator.WordCountOf | transluga-app/src/components/QuoteCalculator.tsx:80 | NaN becomes 0; otherwise the parsed number |
| QuoteCalculator.NonNumericWordCount | transluga-app/src/components/QuoteCalculator.tsx:37-80 | text that does not start with a number gives word count 0 and a price of the fee alone |
| QuoteCalculator.NatToString | transluga-app/src/components/QuoteCalculator.tsx:79 | the displayed count is a non-empty string of digits (the field displays digits only below 1e21; see Left out) |
| QuoteCalculator.DecimalOfNatToString | transluga-app/src/components/QuoteCalculator.tsx:79 | the digits displayed denote the number |
| QuoteCalculator.WordCountRoundTrip | transluga-app/src/components/QuoteCalculator.tsx:79-80 | for every integer a JavaScript number holds exactly (magnitude at most 2^53 - 1), reading back the number the field displays gives that number |
| TranslationDemo.DictionaryShape | transluga-app/src/components/TranslationDemo.tsx:12-36 | the dictionary has one source, English, three targets, and the same five phrases for each |
| TranslationDemo.Translate | transluga-app/src/components/TranslationDemo.tsx:44-52 | a phrase found (case-insensitively) among the dictionary's own keys gives its entry; anything else gives "Translation not available" |
| TranslationDemo.TranslateIgnoresCase | transluga-app/src/components/TranslationDemo.tsx:47-48 | the lookup ignores the case of the phrase |
| TranslationDemo.EntriesAreTranslations | transluga-app/src/components/TranslationDemo.tsx:12-36 | no dictionary entry is empty or reads as the "not available" message |
| TranslationDemo.NotAvailableIffNotFound | transluga-app/src/components/TranslationDemo.tsx:44-52 | with the site's dictionary, the "not available" message appears exactly when the lookup fails |
| TranslationDemo.TranslateAsWritten | transluga-app/src/components/TranslationDemo.tsx:45-48 | the code as written: an own phrase gives its entry; a lowercased phrase that is not an own key but names a member inherited from `Object.prototype` passes the `in` check and yields that member instead of a string (only `constructor` and `__proto__` can be reached); anything else gives "Translation not available" |
| TranslationDemo.AsWrittenAgreesOffPrototype | transluga-app/src/components/TranslationDemo.tsx:45-48 | away from inherited member names, the code as written and the own-key lookup agree |
| TranslationDemo.ConstructorPhraseIsFound | transluga-app/src/components/TranslationDemo.tsx:45-48 | the phrase "Constructor" passes the check as written and reads the inherited `constructor` (the `Object` function), where an own-key lookup gives "Translation not available" |
| TranslationDemo.InheritedOnlyLowerCaseNames | transluga-app/src/components/TranslationDemo.tsx:45-48 | a lowercased phrase names an inherited member only if it is `constructor` or `__proto__`, so these are the only inherited members the check as written can reach |
| TranslationDemo.SetTranslation | transluga-app/src/components/TranslationDemo.tsx:48 | `setTranslation` with a string stores that string; with the inherited `constructor`, a function, React runs it as an updater on the previous state, which wraps a previous primitive string in a `String` object and keeps a previous object; with `__proto__` it stores `Object.prototype` |
| TranslationDemo.Render | transluga-app/src/components/TranslationDemo.tsx:139-144 | the result box is hidden exactly when the state is the primitive `''`, rendering throws exactly when the state is `Object.prototype`, and a shown box shows the state's text |
| TranslationDemo.OwnLookupIsShown | transluga-app/src/components/TranslationDemo.tsx:44-52 | away from inherited names, pressing Translate shows the own-key lookup's string, whatever was shown before |
| TranslationDemo.ConstructorRepeatsPrevious | transluga-app/src/components/TranslationDemo.tsx:45-48 | a phrase that lowercases to "constructor" leaves the box showing the previous text again |
| TranslationDemo.InitialConstructorShowsEmptyBox | transluga-app/src/components/TranslationDemo.tsx:41-48 | from the initial empty translation, "Constructor" shows the result box with nothing in it |
| TranslationDemo.ProtoCrashesRender | transluga-app/src/components/TranslationDemo.tsx:45-48 | a phrase that lowercases to "__proto__" stores `Object.prototype`, and rendering it throws |
| TranslationDemo.Demo.constructor | transluga-app/src/components/TranslationDemo.tsx:39-42 | starts with English, Swahili, "hello" and the primitive empty translation |
| TranslationDemo.Demo.SetSourceLanguage | transluga-app/src/components/TranslationDemo.tsx:63 | sets only the source language |
| TranslationDemo.Demo.SetTargetLanguage | transluga-app/src/components/TranslationDemo.tsx:77 | sets only the target language |
| TranslationDemo.Demo.SetPhrase | transluga-app/src/components/TranslationDemo.tsx:95-127 | typing or a quick-phrase button sets only the phrase; the shown translation is kept |
| TranslationDemo.Demo.TranslatePhrase | transluga-app/src/components/TranslationDemo.tsx:44-52 | the new state is what React stores when the value the lookup as written reads is passed to the setter, given the previous state; off the inherited names the box shows the own-key lookup's string; afterwards the box is never hidden |
| LanguageMap.RegionColor | transluga-app/src/components/LanguageMap.tsx:149-151 | the highlight colour exactly for the active region, the neutral colour for all others |
| LanguageMap.OneHighlight | transluga-app/src/components/LanguageMap.tsx:149-151 | at most one region is highlighted at a time |
| LanguageMap.FindRegion | transluga-app/src/components/LanguageMap.tsx:153-155 | finds nothing exactly when no region has the active id; otherwise the first region with that id |
| LanguageMap.FindUnique | transluga-app/src/components/LanguageMap.tsx:153-155 | with distinct ids, the region found for an id is the region with that id |
| LanguageMap.RegionIdsDistinct | transluga-app/src/components/LanguageMap.tsx:17-126 | the ids of the region data are distinct |
| LanguageMap.HoverTargetsHaveData | transluga-app/src/components/LanguageMap.tsx:176-233 | every region drawn on the map has an entry in the region data |
| LanguageMap.PanelOf | transluga-app/src/components/LanguageMap.tsx:246-269 | the placeholder exactly when no region is active; otherwise the active region's data |
| LanguageMap.PanelShowsHoveredRegion | transluga-app/src/components/LanguageMap.tsx:176-269 | once a map region is hovered, the panel lists that region's languages |
| LanguageMap.MapView.constructor | transluga-app/src/components/LanguageMap.tsx:129-130 | no active region and no tooltip, so the placeholder shows |
| LanguageMap.MapView.Hover | transluga-app/src/components/LanguageMap.tsx:133-143 | the hovered region becomes active and highlighted, and the tooltip shows |
| LanguageMap.MapView.Leave | transluga-app/src/components/LanguageMap.tsx:145-147 | hides the tooltip but keeps the active region, so the panel is unchanged |
| LanguageMap.HoverThenLeave | transluga-app/src/components/LanguageMap.tsx:133-147 | hovering a region and leaving it keeps that region's languages on the panel |
| ContactPage.Set | transluga-app/src/pages/contact.tsx:23-29 | the named field takes the value; every other field keeps its own |
| ContactPage.FieldsDetermineForm | transluga-app/src/pages/contact.tsx:7-15 | two forms with the same value in every field are equal |
| ContactPage.SetSameValue | transluga-app/src/pages/contact.tsx:23-29 | writing back a field's value changes nothing |
| ContactPage.SetTwice | transluga-app/src/pages/contact.tsx:23-29 | a later change to a field overrides an earlier one |
| ContactPage.EmptyFormIsBlank | transluga-app/src/pages/contact.tsx:7-15 | every field of the initial form is empty |
| ContactPage.PhoneOptional | transluga-app/src/pages/contact.tsx:283-291 | the phone number never decides whether the form can be submitted |
| ContactPage.EmptyRequiredBlocks | transluga-app/src/pages/contact.tsx:259-402 | an empty required field blocks submission, so the reset form cannot be resubmitted as it is |
| ContactPage.BannerOf | transluga-app/src/pages/contact.tsx:228-243 | the success banner when submitted, else the error banner on error, else none |
| ContactPage.Page.constructor | transluga-app/src/pages/contact.tsx:7-21 | an empty form and no banner |
| ContactPage.Page.HandleChange | transluga-app/src/pages/contact.tsx:23-29 | only the field named by the event changes; the status is kept |
| ContactPage.Page.HandleSubmit | transluga-app/src/pages/contact.tsx:31-64 | called only with every required field filled (the browser blocks the submit otherwise); after the delay, success: the success banner and a cleared form; on a rejected delay, the error banner and the form kept |
| ContactPage.LanguagesDistinct | transluga-app/src/pages/contact.tsx:80-116 | the language selects offer 25 languages, none twice |
| EmailService.AutoResponseTemplate | transluga-app/src/services/emailService.ts:98-153 | the template follows the form type, greets "there" only when the name is undefined, and shows the fixed admin address only in the newsletter template |
| EmailService.TemplateIgnoresOverrides | transluga-app/src/services/emailService.ts:98-153 | the template does not depend on the admin override, the subject or the message |
| EmailService.EmptyNameNotDefaulted | transluga-app/src/services/emailService.ts:98-153 | an empty name is greeted as it is, not as "there" |
| EmailService.Keys | transluga-app/src/services/emailService.ts:37-69 | the form data's keys, in append order |
| EmailService.Lookup | transluga-app/src/services/emailService.ts:37-69 | `formData.get` finds nothing exactly when the key was never appended |
| EmailService.LookupUnique | transluga-app/src/services/emailService.ts:37-69 | with distinct keys, the lookup of an appended key returns the value appended under it |
| EmailService.ExpectedKeysDistinct | transluga-app/src/services/emailService.ts:37-69 | no key is appended twice |
| EmailService.BuildFormData | transluga-app/src/services/emailService.ts:37-69 | appends email, the name when truthy, message, auto-response, subject, cc, reply-to and website, in that order, with their defaulted values |
| EmailService.SendConfirmationEmail | transluga-app/src/services/emailService.ts:29-90 | posts to the form type's endpoint a body in which every key has its value and reply-to equals the email; the result is true exactly when the response is ok, and every failure gives false |
| DocumentStore.Database.constructor | transluga-app/src/firebase/services/newsletterService.ts:31 | the two collections as they stand when a service writes to them |
| DocumentStore.CountEmail | transluga-app/src/firebase/services/newsletterService.ts:29-35 | the number of subscriber records with an address, zero exactly when no record has it |
| DocumentStore.Database.AddSubscriber | transluga-app/src/firebase/services/newsletterService.ts:31-35 | an accepted insert appends the record to the subscribers and nothing else changes |
| DocumentStore.Database.AddContactSubmission | transluga-app/src/firebase/services/contactService.ts:34-37 | an accepted insert appends the record to the submissions and nothing else changes |
| DocumentStore.CountEmailAppend | transluga-app/src/firebase/services/newsletterService.ts:29-35 | the number of records with an address is additive over concatenation |
| FirebaseConfig.EnvVar | transluga-app/src/firebase/config.ts:18-44 | a variable is undefined exactly when it is not set |
| FirebaseConfig.GetFirebaseConfig | transluga-app/src/firebase/config.ts:18-44 | each setting is read from its variable under the browser or server prefix |
| FirebaseConfig.SettingsDetermineConfig | transluga-app/src/firebase/config.ts:6-14 | a configuration is determined by its settings |
| FirebaseConfig.ConfigIgnoresOtherVars | transluga-app/src/firebase/config.ts:18-44 | a variable outside the environment's prefix never affects the configuration |
| FirebaseConfig.MissingKeys | transluga-app/src/firebase/config.ts:54-55 | exactly the required keys whose setting is falsy, in their order |
| FirebaseConfig.NothingMissingIff | transluga-app/src/firebase/config.ts:54-57 | nothing is missing exactly when API key, auth domain and project id are all truthy |
| FirebaseConfig.OptionalSettingsNeverMissing | transluga-app/src/firebase/config.ts:54-55 | storage bucket, sender id, app id and measurement id are never required |
| FirebaseConfig.Initialize | transluga-app/src/firebase/config.ts:50-67 | `db` is defined exactly when nothing is missing and initialisation does not throw |
| FirebaseFallback.IsFirebaseAvailable | transluga-app/src/firebase/fallback.ts:17-41 | outside a browser never; in a browser exactly when the API key is truthy and not the placeholder and the project id is truthy |
| FirebaseFallback.AvailableImpliesKeysPresent | transluga-app/src/firebase/fallback.ts:17-41 | when the check passes, neither the API key nor the project id is missing |
| FirebaseFallback.AvailableWithoutDatabase | transluga-app/src/firebase/fallback.ts:17-41 | the check ignores the auth domain, so it can pass while `db` stays undefined |
| FirebaseFallback.DatabaseWithoutAvailability | transluga-app/src/firebase/fallback.ts:17-41 | the placeholder key passes initialisation but not this check |
| NewsletterService.AddNewsletterSubscriber | transluga-app/src/firebase/services/newsletterService.ts:18-54 | a document id exactly when the check passes, `db` is defined and the insert is accepted; 'error-handled' exactly when the delay rejects; 'mock-success' otherwise; the subscribers grow by the one record only when an id is returned |
| NewsletterService.SubscribeTwice | transluga-app/src/firebase/services/newsletterService.ts:27-38 | subscribing the same address twice stores it twice |
| ContactService.SubmitContactForm | transluga-app/src/firebase/services/contactService.ts:20-44 | rejects when `db` is undefined; otherwise stores the form with its timestamp and returns the new id, or passes on the insert error with nothing stored |
| ContactService.RejectedInsertHandling | transluga-app/src/firebase/services/contactService.ts:34-43 | given the same rejected insert, the newsletter service reports 'mock-success', the contact service rejects with the error, and neither stores anything |
| CloudFunctions.GetTransporter | transluga-app/functions/src/index.ts:11-31 | a transporter exactly when the email configuration and its user and password are present, built from them |
| CloudFunctions.GetCompanyEmail | transluga-app/functions/src/index.ts:34-40 | the configured company address if truthy, otherwise the default, also when reading throws; never empty |
| CloudFunctions.CompanyEmailIgnoresCredentials | transluga-app/functions/src/index.ts:34-40 | the company address does not depend on the credentials |
| CloudFunctions.Mailer.SendMail | transluga-app/functions/src/index.ts:71-104 | every attempted send is recorded in order |
| CloudFunctions.NewsletterMails | transluga-app/functions/src/index.ts:45-110 | no mail without valid data, with the skip flag, or without a transporter; otherwise the welcome to the subscriber, then the company notice unless the first send failed |
| CloudFunctions.SkipFlagSendsNothing | transluga-app/functions/src/index.ts:54-58 | the skip flag suppresses every mail |
| CloudFunctions.SendNewsletterConfirmation | transluga-app/functions/src/index.ts:45-110 | the mails sent are exactly the ones the newsletter trigger should attempt, in order |
| CloudFunctions.ContactMails | transluga-app/functions/src/index.ts:115-183 | no mail without valid data or a transporter; otherwise the thanks to the contact (name defaults to "Customer", service to "Not specified"), then the company notice unless the first send failed |
| CloudFunctions.ContactIgnoresSkipFlag | transluga-app/functions/src/index.ts:115-131 | the contact trigger sends the same mails whatever the skip flag says |
| CloudFunctions.EmptyNameNotDefaulted | transluga-app/functions/src/index.ts:124 | an empty name is defined, so it is not replaced by "Customer" |
| CloudFunctions.SendContactConfirmation | transluga-app/functions/src/index.ts:115-183 | the mails sent are exactly the ones the contact trigger should attempt, in order |

## Left out

- QuoteCalculator.Price: the total is an exact real. Floating-point arithmetic and the rounding to cents by `parseFloat(price.toFixed(2))` (QuoteCalculator.tsx:48) are not modelled, so the contract says nothing about rounding.
- LanguageQuiz.Tier: the percentage `score / length * 100` is compared as an exact rational (`score * 100` against `threshold * length`). Floating-point rounding of the division is not modelled.
- The word-count input's `min="100"` attribute is not modelled, because it does not constrain the values `onChange` delivers.
- QuoteCalculator.ParseInt: only space, tab, newline and carriage return count as leading whitespace, and only base 10 is modelled. `parseInt`'s other Unicode spaces and its `0x` prefix are not.
- The setters of the quote calculator's selects and checkbox are plain field updates of `QuoteInputs` and are not modelled one by one.
- The autoplay period, the delays of the contact page (1 second) and the newsletter service (500 milliseconds), and the interval's registration and clearing are timing and are not modelled. Only the order of ticks and clicks is.
- The language map's tooltip position (mouse coordinates) is not modelled. Only the tooltip's visibility is.
- Card-only text is not modelled: case-study titles and results, the quiz's explanation text, and the language map's descriptions and country lists. No logic reads it.
- The HTML bodies of the mails and of the auto-response are reduced to the values inserted into them (`EmailService.Template`, `CloudFunctions.MailBody`).
- Console logging is not modelled. This includes `handleFirebaseError` (fallback.ts:8-11), which only logs.
- The browser's `type="email"` format check is not modelled. Only the `required` attributes are.
- The services select's option list on the contact page is not modelled.
- The contact trigger's name and message defaults apply to `undefined` only. A stored `null` name or message is modelled as absent, which gives the "Customer" name and the empty message, where the source would show "null".
- CloudFunctions.NewsletterMails: `skipEmailConfirmation` is modelled as a boolean. The source tests the stored value's truthiness, whatever its type.
- QuoteCalculator.NatToString: the word count is an unbounded integer. A JavaScript number of 1e21 or more is displayed in exponent notation ("1e+21"), which the model does not produce.
- QuoteCalculator.WordCountOf: `parseInt` returns a double, which rounds integers beyond 2^53. The model returns the exact integer, so `WordCountRoundTrip` is stated only up to `Number.MAX_SAFE_INTEGER`.
- `createTransport` throwing inside `getTransporter` is not modelled. Only a throw of `functions.config()` is, and it gives no transporter in the same way.
- FirebaseFallback.IsFirebaseAvailable: the `catch` branch is not modelled, because reading the modelled environment cannot throw.
- CaseStudies.TabLabel, CaseStudies.FilterByIndustry, CaseStudies.LowerIndustries, CaseStudies.Industries, TranslationDemo.Translate, TranslationDemo.TranslateAsWritten: case mapping (`JsValues.Lower`, `JsValues.UpperChar`) covers ASCII letters only. JavaScript's `toLowerCase` and `toUpperCase` also map other characters (the Kelvin sign U+212A lowers to "k", so "THAN\u212A YOU" finds "thank you" in the source, where the model gives "Translation not available").
- TranslationDemo.TranslateAsWritten: only the phrase level of the `in` check is modelled. Source and target come from select options, so they are always own keys.
- The triggers' `return null` values and the services' `console.error` lines are not modelled. They carry no information.

## Findings

| source | as written | input that shows it | evidently intended | confidence | as-written member | corrected member |
|---|---|---|---|---|---|---|
| transluga-app/src/components/TranslationDemo.tsx:45-48 | the phrase is looked up with `in`, which also accepts members inherited from `Object.prototype` | the phrase "Constructor" (any case of "constructor", or "__proto__"): it is found, and the inherited `Object` function is passed to the state setter, which runs it as an updater: the box shows the previous translation again, or an empty box from the initial state; for "__proto__" the state becomes `Object.prototype` and the render throws | only the dictionary's own phrases are found; anything else shows "Translation not available" | not executed | TranslationDemo.ConstructorPhraseIsFound | TranslationDemo.NotAvailableIffNotFound |
