/**
  The phrase translation demo: a nested dictionary source language ->
  target language -> lowercased phrase -> translation, the lookup run by the
  Translate button, and the component state that only that button writes
  the result into.
 */
module TranslationDemo {
  import opened JsValues

  type Dictionary = map<string, map<string, map<string, string>>>

  const PhraseKeys: set<string> := {"hello", "thank you", "how are you", "goodbye", "welcome"}

  const Translations: Dictionary := map[
    "english" := map[
      "swahili" := map[
        "hello" := "jambo",
        "thank you" := "asante",
        "how are you" := "habari gani",
        "goodbye" := "kwaheri",
        "welcome" := "karibu"],
      "chichewa" := map[
        "hello" := "moni",
        "thank you" := "zikomo",
        "how are you" := "muli bwanji",
        "goodbye" := "tsalani bwino",
        "welcome" := "takulandirani"],
      "lingala" := map[
        "hello" := "mbote",
        "thank you" := "merci",
        "how are you" := "ozali malamu",
        "goodbye" := "kende malamu",
        "welcome" := "boyei malamu"]]]

  const NotAvailable := "Translation not available"

  /** The dictionary has the one source `english`, and each of its three targets defines the same five phrases. */
  lemma DictionaryShape()
    ensures Translations.Keys == {"english"}
    ensures Translations["english"].Keys == {"swahili", "chichewa", "lingala"}
    ensures forall t :: t in Translations["english"] ==> Translations["english"][t].Keys == PhraseKeys
  {
  }

  /** Source, target and lowercased phrase are all own keys of the dictionary. */
  predicate Found(dict: Dictionary, source: string, target: string, phrase: string)
  {
    source in dict && target in dict[source] && Lower(phrase) in dict[source][target]
  }

  /** `translatePhrase`'s lookup, on the dictionary's own keys. */
  function Translate(dict: Dictionary, source: string, target: string, phrase: string): (r: string)
    ensures Found(dict, source, target, phrase) ==> r == dict[source][target][Lower(phrase)]
    ensures !Found(dict, source, target, phrase) ==> r == NotAvailable
  {
    if source in dict && target in dict[source] && Lower(phrase) in dict[source][target] then
      dict[source][target][Lower(phrase)]
    else
      NotAvailable
  }

  /** The lookup ignores the case of the phrase. */
  lemma TranslateIgnoresCase(dict: Dictionary, source: string, target: string, phrase: string)
    ensures Translate(dict, source, target, phrase) == Translate(dict, source, target, Lower(phrase))
  {
    LowerIdempotent(phrase);
  }

  /** No entry of the site's dictionary is empty or reads as the "not available" message. */
  lemma EntriesAreTranslations(source: string, target: string, key: string)
    requires source in Translations && target in Translations[source] && key in Translations[source][target]
    ensures Translations[source][target][key] != "" && Translations[source][target][key] != NotAvailable
  {
    DictionaryShape();
  }

  /** With the site's dictionary, the message appears exactly when the lookup fails. */
  lemma NotAvailableIffNotFound(source: string, target: string, phrase: string)
    ensures Translate(Translations, source, target, phrase) == NotAvailable <==> !Found(Translations, source, target, phrase)
  {
    if Found(Translations, source, target, phrase) {
      EntriesAreTranslations(source, target, Lower(phrase));
    }
  }

  /** Members every plain JavaScript object inherits from `Object.prototype`. */
  const ObjectPrototypeMembers: set<string> := {
    "constructor", "__proto__", "hasOwnProperty", "isPrototypeOf", "propertyIsEnumerable",
    "toString", "toLocaleString", "valueOf",
    "__defineGetter__", "__defineSetter__", "__lookupGetter__", "__lookupSetter__"}

  /**
    A lowercased phrase can only name an inherited member spelled in lower
    case: of the members above, `constructor` and `__proto__`.
   */
  lemma {:induction false} InheritedOnlyLowerCaseNames(phrase: string)
    ensures Lower(phrase) in ObjectPrototypeMembers ==> Lower(phrase) == "constructor" || Lower(phrase) == "__proto__"
  {
    LowerIsLowerCase(phrase);
    assert IsUpperAscii("hasOwnProperty"[3]) && IsUpperAscii("isPrototypeOf"[2]);
    assert IsUpperAscii("propertyIsEnumerable"[8]) && IsUpperAscii("toString"[2]);
    assert IsUpperAscii("toLocaleString"[2]) && IsUpperAscii("valueOf"[5]);
    assert IsUpperAscii("__defineGetter__"[8]) && IsUpperAscii("__defineSetter__"[8]);
    assert IsUpperAscii("__lookupGetter__"[8]) && IsUpperAscii("__lookupSetter__"[8]);
  }

  /** What `translations[s][t][key]` yields: a dictionary string, or an inherited member (a function or object). */
  datatype Lookup = Text(text: string) | InheritedMember(name: string)

  /**
    The lookup as written: `key in object` also holds for members inherited
    from `Object.prototype`, so the phrase test passes for them and the
    state receives that member instead of a string. Source and target come
    from the select options, which are own keys, so only the phrase level is
    affected.
   */
  function TranslateAsWritten(dict: Dictionary, source: string, target: string, phrase: string): (r: Lookup)
    ensures Found(dict, source, target, phrase) ==> r == Text(dict[source][target][Lower(phrase)])
    ensures r.InheritedMember? ==> r.name == Lower(phrase) && r.name in ObjectPrototypeMembers
    ensures r.InheritedMember? ==> r.name == "constructor" || r.name == "__proto__"
    ensures (source in dict && target in dict[source] && Lower(phrase) !in dict[source][target]
             && Lower(phrase) in ObjectPrototypeMembers) ==>
      r == InheritedMember(Lower(phrase))
    ensures (!Found(dict, source, target, phrase)
             && !(source in dict && target in dict[source] && Lower(phrase) in ObjectPrototypeMembers)) ==>
      r == Text(NotAvailable)
  {
    InheritedOnlyLowerCaseNames(phrase);
    var key := Lower(phrase);
    if source in dict && target in dict[source] && (key in dict[source][target] || key in ObjectPrototypeMembers) then
      if key in dict[source][target] then Text(dict[source][target][key]) else InheritedMember(key)
    else
      Text(NotAvailable)
  }

  /** Away from inherited member names, the code as written and the own-key lookup agree. */
  lemma AsWrittenAgreesOffPrototype(dict: Dictionary, source: string, target: string, phrase: string)
    requires Lower(phrase) !in ObjectPrototypeMembers
    ensures TranslateAsWritten(dict, source, target, phrase) == Text(Translate(dict, source, target, phrase))
  {
  }

  lemma LowerConstructor()
    ensures Lower("Constructor") == "constructor"
  {
    var rest := "onstructor";
    assert "Constructor"[1..] == rest;
    assert "constructor" == ['c'] + rest;
    LowerCaseFixed(rest);
  }

  lemma NotAPhrase(source: string, target: string, key: string)
    requires source in Translations && target in Translations[source]
    requires key == "constructor" || key == "__proto__"
    ensures key !in Translations[source][target]
  {
    DictionaryShape();
    assert key !in PhraseKeys;
  }

  /**
    The lookup as written finds "Constructor" (and any other casing of
    "constructor") and reads the inherited `constructor`, the `Object`
    function, where the own-key lookup gives the "not available" message.
   */
  lemma ConstructorPhraseIsFound()
    ensures TranslateAsWritten(Translations, "english", "swahili", "Constructor") == InheritedMember("constructor")
    ensures Translate(Translations, "english", "swahili", "Constructor") == NotAvailable
  {
    LowerConstructor();
    NotAPhrase("english", "swahili", "constructor");
    assert "constructor" in ObjectPrototypeMembers;
  }

  /**
    What React keeps in the `translation` state: a primitive string, a
    `String` wrapper object around one, or the `Object.prototype` object.
   */
  datatype Stored = Str(text: string) | StringObject(text: string) | PrototypeObject

  /**
    `setTranslation(value)`. React takes a function argument for an updater
    and stores what it returns on the previous state. The inherited
    `constructor` is `Object`, which wraps a primitive string in a `String`
    object and returns an object as it is. The inherited `__proto__` is
    `Object.prototype`, not a function, so it is stored itself.
   */
  function SetTranslation(prev: Stored, value: Lookup): (r: Stored)
    requires value.InheritedMember? ==> value.name == "constructor" || value.name == "__proto__"
    ensures value.Text? ==> r == Str(value.text)
    ensures (value == InheritedMember("constructor") && prev.Str?) ==> r == StringObject(prev.text)
    ensures (value == InheritedMember("constructor") && !prev.Str?) ==> r == prev
    ensures value == InheritedMember("__proto__") ==> r == PrototypeObject
  {
    match value
    case Text(t) => Str(t)
    case InheritedMember(name) =>
      if name == "__proto__" then PrototypeObject
      else if prev.Str? then StringObject(prev.text)
      else prev
  }

  /** What `{translation && ...}` puts on the page. */
  datatype Box = Hidden | Shown(text: string) | RenderThrows

  /**
    The result box. The primitive `''` is falsy and hides it; every object is
    truthy, so a `String` wrapper shows its characters, even none; and
    `Object.prototype` is not a valid React child, so rendering it throws.
   */
  function Render(t: Stored): (b: Box)
    ensures b == Hidden <==> t == Str("")
    ensures b == RenderThrows <==> t == PrototypeObject
    ensures b.Shown? ==> b.text == t.text
  {
    match t
    case Str(s) => if s == "" then Hidden else Shown(s)
    case StringObject(s) => Shown(s)
    case PrototypeObject => RenderThrows
  }

  /** Away from inherited names, Translate shows the own-key lookup's string, whatever was shown before. */
  lemma OwnLookupIsShown(prev: Stored, source: string, target: string, phrase: string)
    requires Lower(phrase) !in ObjectPrototypeMembers
    ensures Render(SetTranslation(prev, TranslateAsWritten(Translations, source, target, phrase)))
      == Shown(Translate(Translations, source, target, phrase))
  {
    AsWrittenAgreesOffPrototype(Translations, source, target, phrase);
    if Found(Translations, source, target, phrase) {
      EntriesAreTranslations(source, target, Lower(phrase));
    }
  }

  /**
    A phrase that lowercases to "constructor" leaves the box showing the
    previous text again, now inside a `String` wrapper.
   */
  lemma ConstructorRepeatsPrevious(prev: Stored, source: string, target: string, phrase: string)
    requires source in Translations && target in Translations[source]
    requires Lower(phrase) == "constructor" && !prev.PrototypeObject?
    ensures Render(SetTranslation(prev, TranslateAsWritten(Translations, source, target, phrase)))
      == Shown(prev.text)
  {
    NotAPhrase(source, target, "constructor");
  }

  /** From the initial empty translation, "Constructor" shows the result box with nothing in it. */
  lemma InitialConstructorShowsEmptyBox()
    ensures Render(SetTranslation(Str(""), TranslateAsWritten(Translations, "english", "swahili", "Constructor")))
      == Shown("")
  {
    ConstructorPhraseIsFound();
  }

  /** A phrase that lowercases to "__proto__" stores `Object.prototype`, and the next render throws. */
  lemma ProtoCrashesRender(prev: Stored, source: string, target: string, phrase: string)
    requires source in Translations && target in Translations[source]
    requires Lower(phrase) == "__proto__"
    ensures Render(SetTranslation(prev, TranslateAsWritten(Translations, source, target, phrase)))
      == RenderThrows
  {
    NotAPhrase(source, target, "__proto__");
  }

  /** The demo component's state; `translation` holds what React stores for the lookup as written. */
  class Demo {
    var sourceLanguage: string
    var targetLanguage: string
    var phrase: string
    var translation: Stored

    constructor ()
      ensures sourceLanguage == "english" && targetLanguage == "swahili" && phrase == "hello" && translation == Str("")
    {
      sourceLanguage := "english";
      targetLanguage := "swahili";
      phrase := "hello";
      translation := Str("");
    }

    /** The "From" select. */
    method SetSourceLanguage(value: string)
      modifies this
      ensures sourceLanguage == value
      ensures targetLanguage == old(targetLanguage) && phrase == old(phrase) && translation == old(translation)
    {
      sourceLanguage := value;
    }

    /** The "To" select. */
    method SetTargetLanguage(value: string)
      modifies this
      ensures targetLanguage == value
      ensures sourceLanguage == old(sourceLanguage) && phrase == old(phrase) && translation == old(translation)
    {
      targetLanguage := value;
    }

    /** The phrase input and the sample-phrase buttons. */
    method SetPhrase(value: string)
      modifies this
      ensures phrase == value
      ensures sourceLanguage == old(sourceLanguage) && targetLanguage == old(targetLanguage)
      ensures translation == old(translation)
    {
      phrase := value;
    }

    /**
      `translatePhrase`, the only writer of `translation`, as written: the
      `in` tests also accept inherited members, and the value read is handed
      to the state setter. Off the inherited names the box shows the own-key
      lookup's string; in every case the box is shown afterwards.
     */
    method TranslatePhrase()
      modifies this
      ensures translation == SetTranslation(old(translation), TranslateAsWritten(Translations, sourceLanguage, targetLanguage, phrase))
      ensures Lower(phrase) !in ObjectPrototypeMembers ==>
        Render(translation) == Shown(Translate(Translations, sourceLanguage, targetLanguage, phrase))
      ensures Render(translation) != Hidden
      ensures sourceLanguage == old(sourceLanguage) && targetLanguage == old(targetLanguage) && phrase == old(phrase)
    {
      var key := Lower(phrase);
      InheritedOnlyLowerCaseNames(phrase);
      if sourceLanguage in Translations && targetLanguage in Translations[sourceLanguage]
        && (key in Translations[sourceLanguage][targetLanguage] || key in ObjectPrototypeMembers)
      {
        if key in Translations[sourceLanguage][targetLanguage] {
          EntriesAreTranslations(sourceLanguage, targetLanguage, key);
          translation := SetTranslation(translation, Text(Translations[sourceLanguage][targetLanguage][key]));
        } else {
          translation := SetTranslation(translation, InheritedMember(key));
        }
      } else {
        translation := SetTranslation(translation, Text(NotAvailable));
      }
      if key !in ObjectPrototypeMembers {
        AsWrittenAgreesOffPrototype(Translations, sourceLanguage, targetLanguage, phrase);
      }
    }
  }
}
