/**
  The contact page: a seven-field form record updated one named field at a
  time, the submission status record, the status banner, the fields the
  browser requires before it lets the form submit, and the language list
  offered by the two language selects.
 */
module ContactPage {
  import opened JsValues

  /** The `name` attributes of the form's inputs. */
  datatype Field = Name | Email | Phone | Service | SourceLanguage | TargetLanguage | Message

  datatype FormData = FormData(
    name: string,
    email: string,
    phone: string,
    service: string,
    sourceLanguage: string,
    targetLanguage: string,
    message: string)

  /** `formData[field]` */
  function Get(f: FormData, field: Field): string
  {
    match field
    case Name => f.name
    case Email => f.email
    case Phone => f.phone
    case Service => f.service
    case SourceLanguage => f.sourceLanguage
    case TargetLanguage => f.targetLanguage
    case Message => f.message
  }

  /** `{ ...formData, [field]: value }`: the named field takes the value, every other field keeps its own. */
  function Set(f: FormData, field: Field, value: string): (g: FormData)
    ensures Get(g, field) == value
    ensures forall other :: other != field ==> Get(g, other) == Get(f, other)
  {
    match field
    case Name => f.(name := value)
    case Email => f.(email := value)
    case Phone => f.(phone := value)
    case Service => f.(service := value)
    case SourceLanguage => f.(sourceLanguage := value)
    case TargetLanguage => f.(targetLanguage := value)
    case Message => f.(message := value)
  }

  /** Two records with the same value in every field are the same record. */
  lemma FieldsDetermineForm(f: FormData, g: FormData)
    requires forall field :: Get(f, field) == Get(g, field)
    ensures f == g
  {
    assert Get(f, Name) == Get(g, Name) && Get(f, Email) == Get(g, Email) && Get(f, Phone) == Get(g, Phone);
    assert Get(f, Service) == Get(g, Service) && Get(f, SourceLanguage) == Get(g, SourceLanguage);
    assert Get(f, TargetLanguage) == Get(g, TargetLanguage) && Get(f, Message) == Get(g, Message);
  }

  /** Writing back the value a field already holds changes nothing. */
  lemma SetSameValue(f: FormData, field: Field)
    ensures Set(f, field, Get(f, field)) == f
  {
    FieldsDetermineForm(Set(f, field, Get(f, field)), f);
  }

  /** A later change to a field overrides an earlier one. */
  lemma SetTwice(f: FormData, field: Field, a: string, b: string)
    ensures Set(Set(f, field, a), field, b) == Set(f, field, b)
  {
    FieldsDetermineForm(Set(Set(f, field, a), field, b), Set(f, field, b));
  }

  /** The initial form, and the form after a successful submission. */
  const EmptyForm := FormData("", "", "", "", "", "", "")

  lemma EmptyFormIsBlank(field: Field)
    ensures Get(EmptyForm, field) == ""
  {
  }

  /** The inputs carrying the `required` attribute: all but the phone number. */
  const RequiredFields: set<Field> := {Name, Email, Service, SourceLanguage, TargetLanguage, Message}

  /** The browser only fires the submit handler when every required field is non-empty. */
  predicate RequiredFilled(f: FormData)
  {
    forall field :: field in RequiredFields ==> Get(f, field) != ""
  }

  /** The phone number is optional: it never decides whether the form can be submitted. */
  lemma PhoneOptional(f: FormData, value: string)
    ensures RequiredFilled(Set(f, Phone, value)) <==> RequiredFilled(f)
  {
  }

  /** Any empty required field blocks submission; the reset form cannot be resubmitted as it is. */
  lemma EmptyRequiredBlocks(f: FormData, field: Field)
    requires field in RequiredFields
    ensures !RequiredFilled(Set(f, field, ""))
    ensures !RequiredFilled(EmptyForm)
  {
    assert Get(Set(f, field, ""), field) == "";
    assert Get(EmptyForm, Name) == "";
  }

  datatype FormStatus = FormStatus(submitted: bool, error: bool, message: string)

  const InitialStatus := FormStatus(false, false, "")
  const SuccessMessage := "Thank you! Your message has been received. We will contact you shortly."
  const ErrorMessage := "There was an error submitting your request. Please try again."

  datatype Banner = NoBanner | SuccessBanner(text: string) | ErrorBanner(text: string)

  /** The banner above the form: success wins over error, and neither flag means no banner. */
  function BannerOf(st: FormStatus): (b: Banner)
    ensures st.submitted ==> b == SuccessBanner(st.message)
    ensures !st.submitted && st.error ==> b == ErrorBanner(st.message)
    ensures b == NoBanner <==> !st.submitted && !st.error
  {
    if st.submitted then SuccessBanner(st.message)
    else if st.error then ErrorBanner(st.message)
    else NoBanner
  }

  /** The page's state. */
  class Page {
    var formData: FormData
    var formStatus: FormStatus

    constructor ()
      ensures formData == EmptyForm && formStatus == InitialStatus
      ensures BannerOf(formStatus) == NoBanner
    {
      formData := EmptyForm;
      formStatus := InitialStatus;
    }

    /** `handleChange`: only the field named by the event changes. */
    method HandleChange(field: Field, value: string)
      modifies this
      ensures formData == Set(old(formData), field, value)
      ensures formStatus == old(formStatus)
    {
      formData := Set(formData, field, value);
    }

    /**
      `handleSubmit`. `delayRejected` says whether the awaited delay
      promise rejected; with the page's `setTimeout` promise it never does,
      so the error branch is present but unreachable. The browser fires the
      submit handler only when every `required` input is non-empty.
     */
    method HandleSubmit(delayRejected: bool)
      requires RequiredFilled(formData)
      modifies this
      ensures !delayRejected ==> formStatus == FormStatus(true, false, SuccessMessage) && formData == EmptyForm
      ensures !delayRejected ==> BannerOf(formStatus) == SuccessBanner(SuccessMessage)
      ensures delayRejected ==> formStatus == FormStatus(false, true, ErrorMessage) && formData == old(formData)
      ensures delayRejected ==> BannerOf(formStatus) == ErrorBanner(ErrorMessage)
    {
      if !delayRejected {
        formStatus := FormStatus(true, false, SuccessMessage);
        formData := EmptyForm;
      } else {
        formStatus := FormStatus(false, true, ErrorMessage);
      }
    }
  }

  // The language selects: the standard languages, then the African
  // languages, then "Other".

  const StandardLanguages: seq<string> := [
    "English", "Spanish", "French", "German", "Italian", "Portuguese",
    "Russian", "Chinese", "Japanese", "Korean", "Arabic", "Hindi"]

  const AfricanLanguages: seq<string> := [
    "Swahili", "Lingala", "Chichewa", "Nyanja", "Kirundi", "Kinyarwanda",
    "Zulu", "Xhosa", "Afrikaans", "Amharic", "Yoruba", "Igbo"]

  const Languages: seq<string> := StandardLanguages + AfricanLanguages + ["Other"]

  lemma StandardDistinct()
    ensures NoDuplicates(StandardLanguages)
  {
  }

  lemma AfricanDistinct()
    ensures NoDuplicates(AfricanLanguages)
  {
  }

  lemma ListsDisjoint()
    ensures forall i, j :: 0 <= i < |StandardLanguages| && 0 <= j < |AfricanLanguages| ==> StandardLanguages[i] != AfricanLanguages[j]
  {
  }

  /** The list offers 25 languages, none of them twice. */
  lemma LanguagesDistinct()
    ensures |Languages| == 25
    ensures NoDuplicates(Languages)
  {
    StandardDistinct();
    AfricanDistinct();
    ListsDisjoint();
  }
}
