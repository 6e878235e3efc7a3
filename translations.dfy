/** The translation resolver of the application: a closed set of four display
    languages, one constant table per language from the 24 translation keys
    to localised text, the active-language state with its default and setter, and
    the lookup `t` that falls back to the key itself. */
module Translations {

  import opened Wrappers

  /** The `Language` union type of the source: exactly four language tags. */
  datatype Language = En | Hi | Pa | Te

  /** The string each tag has in the source (`'en' | 'hi' | 'pa' | 'te'`). */
  function Code(l: Language): string
  {
    match l
    case En => "en"
    case Hi => "hi"
    case Pa => "pa"
    case Te => "te"
  }

  /** Reads a language code; only the four codes of the union type are accepted. */
  function Parse(s: string): (r: Option<Language>)
    ensures r.Some? <==> s == "en" || s == "hi" || s == "pa" || s == "te"
    ensures r.Some? ==> Code(r.value) == s
  {
    if s == "en" then Some(En)
    else if s == "hi" then Some(Hi)
    else if s == "pa" then Some(Pa)
    else if s == "te" then Some(Te)
    else None
  }

  /** The language a freshly mounted provider starts with. */
  const DefaultLanguage: Language := Hi

  /** The 24 translation keys, in the order in which every table of the source
      lists them. */
  const TranslationKeys: seq<string> := [
    "crop.recommendations", "location", "soil", "season", "suitable",
    "enter.location", "detect.location", "select.soil", "select.season", "get.recommendations",
    "clay", "sandy", "loam", "black", "red",
    "kharif", "rabi", "zaid",
    "quintals.hectare", "profit.hectare", "water.requirement", "fertilizer.advice", "pest.control",
    "back.form"
  ]

  /** The English texts (LanguageContext.tsx, lines 12-48), in key order. */
  const EnglishTexts: seq<string> := [
    "Crop Recommendations",
    "Location",
    "Soil",
    "Season",
    "Suitable",
    "Enter your location",
    "Detect My Location",
    "Select Soil Type",
    "Select Season",
    "Get Crop Recommendations",
    "Clay",
    "Sandy",
    "Loam",
    "Black Soil",
    "Red Soil",
    "Kharif (Monsoon)",
    "Rabi (Winter)",
    "Zaid (Summer)",
    "Quintals per hectare",
    "Profit per hectare",
    "Water requirement",
    "Fertilizer Advice",
    "Pest Control",
    "Back to Form"
  ]

  /** The Hindi texts (LanguageContext.tsx, lines 49-85), in key order. */
  const HindiTexts: seq<string> := [
    "फसल सुझाव",
    "स्थान",
    "मिट्टी",
    "मौसम",
    "उपयुक्त",
    "अपना स्थान दर्ज करें",
    "मेरा स्थान खोजें",
    "मिट्टी का प्रकार चुनें",
    "मौसम चुनें",
    "फसल सुझाव प्राप्त करें",
    "चिकनी मिट्टी",
    "रेतीली मिट्टी",
    "दोमट मिट्टी",
    "काली मिट्टी",
    "लाल मिट्टी",
    "खरीफ (बारिश)",
    "रबी (सर्दी)",
    "जायद (गर्मी)",
    "क्विंटल प्रति हेक्टेयर",
    "लाभ प्रति हेक्टेयर",
    "पानी की जरूरत",
    "उर्वरक सलाह",
    "कीड़े नियंत्रण",
    "फॉर्म पर वापस जाएं"
  ]

  /** The Punjabi texts (LanguageContext.tsx, lines 86-122), in key order. */
  const PunjabiTexts: seq<string> := [
    "ਫਸਲ ਸੁਝਾਅ",
    "ਸਥਾਨ",
    "ਮਿੱਟੀ",
    "ਮੌਸਮ",
    "ਢੁਕਵਾਂ",
    "ਆਪਣਾ ਸਥਾਨ ਦਾਖਲ ਕਰੋ",
    "ਮੇਰਾ ਸਥਾਨ ਲੱਭੋ",
    "ਮਿੱਟੀ ਦੀ ਕਿਸਮ ਚੁਣੋ",
    "ਮੌਸਮ ਚੁਣੋ",
    "ਫਸਲ ਸੁਝਾਅ ਪ੍ਰਾਪਤ ਕਰੋ",
    "ਚਿਕਨੀ ਮਿੱਟੀ",
    "ਰੇਤਲੀ ਮਿੱਟੀ",
    "ਦੋਮਟ ਮਿੱਟੀ",
    "ਕਾਲੀ ਮਿੱਟੀ",
    "ਲਾਲ ਮਿੱਟੀ",
    "ਖਰੀਫ (ਮਾਨਸੂਨ)",
    "ਰਬੀ (ਸਰਦੀ)",
    "ਜ਼ਾਇਦ (ਗਰਮੀ)",
    "ਕੁਇੰਟਲ ਪ੍ਰਤੀ ਹੈਕਟੇਅਰ",
    "ਲਾਭ ਪ੍ਰਤੀ ਹੈਕਟੇਅਰ",
    "ਪਾਣੀ ਦੀ ਲੋੜ",
    "ਖਾਦ ਸਲਾਹ",
    "ਕੀੜੇ ਨਿਯੰਤਰਣ",
    "ਫਾਰਮ ਤੇ ਵਾਪਸ ਜਾਓ"
  ]

  /** The Telugu texts (LanguageContext.tsx, lines 123-159), in key order. */
  const TeluguTexts: seq<string> := [
    "పంట సిఫార్సులు",
    "ప్రాంతం",
    "మట్టి",
    "కాలం",
    "అనుకూలమైన",
    "మీ ప్రాంతాన్ని నమోదు చేయండి",
    "నా ప్రాంతాన్ని గుర్తించండి",
    "మట్టి రకాన్ని ఎంచుకోండి",
    "కాలాన్ని ఎంచుకోండి",
    "పంట సిఫార్సులు పొందండి",
    "మట్టి మట్టి",
    "ఇసుక మట్టి",
    "లోమ్ మట్టి",
    "నల్ల మట్టి",
    "ఎర్ర మట్టి",
    "ఖరీఫ్ (వర్షాకాలం)",
    "రబీ (శీతాకాలం)",
    "జాయిద్ (వేసవి)",
    "క్వింటల్స్ పర్ హెక్టార్",
    "లాభం పర్ హెక్టార్",
    "నీటి అవసరం",
    "ఎరువుల సలహా",
    "పురుగుల నియంత్రణ",
    "ఫారమ్\U{200C}కు తిరిగి వెళ్లండి"
  ]

  /** The table of language `l` (`translations[l]`), as its texts position by
      position with `TranslationKeys`: the table maps `TranslationKeys[i]` to
      `Texts(l)[i]`. */
  function Texts(l: Language): (texts: seq<string>)
    ensures |texts| == |TranslationKeys|
  {
    match l
    case En => EnglishTexts
    case Hi => HindiTexts
    case Pa => PunjabiTexts
    case Te => TeluguTexts
  }

  /** The first position at or after `from` that holds `key`, if any. */
  function IndexFrom(key: string, from: nat): (r: Option<nat>)
    requires from <= |TranslationKeys|
    ensures r.Some? ==> from <= r.value < |TranslationKeys| && TranslationKeys[r.value] == key
    ensures r.None? ==> forall i :: from <= i < |TranslationKeys| ==> TranslationKeys[i] != key
    decreases |TranslationKeys| - from
  {
    if from == |TranslationKeys| then None
    else if TranslationKeys[from] == key then Some(from)
    else IndexFrom(key, from + 1)
  }

  /** `translations[l][key]` as an own-property read: the text of `key` when
      `key` is a translation key, and nothing otherwise. */
  function Entry(l: Language, key: string): (e: Option<string>)
    ensures e.Some? <==> key in TranslationKeys
    ensures e.Some? ==> exists i :: 0 <= i < |TranslationKeys| && TranslationKeys[i] == key && e.value == Texts(l)[i]
  {
    match IndexFrom(key, 0)
    case Some(i) => Some(Texts(l)[i])
    case None => None
  }

  /** `t(key)` with `l` active: the table entry when there is one and it is not
      the empty string (JavaScript's `||` treats "" as false), and otherwise
      the key itself. */
  function Lookup(l: Language, key: string): (r: string)
    ensures Entry(l, key).Some? && Entry(l, key).value != "" ==> r == Entry(l, key).value
    ensures Entry(l, key).None? || Entry(l, key).value == "" ==> r == key
    ensures key != "" ==> r != ""
  {
    match Entry(l, key)
    case Some(text) => if text != "" then text else key
    case None => key
  }

  /** No key is listed twice. */
  lemma TranslationKeysDistinct()
    ensures forall i, j :: 0 <= i < j < |TranslationKeys| ==> TranslationKeys[i] != TranslationKeys[j]
  {
  }

  /** Each table maps the i-th key to the i-th text: the tables are the
      source's object literals entry for entry. */
  lemma EntryAt(l: Language, i: int)
    requires 0 <= i < |TranslationKeys|
    ensures Entry(l, TranslationKeys[i]) == Some(Texts(l)[i])
  {
    TranslationKeysDistinct();
    var j := IndexFrom(TranslationKeys[i], 0);
    assert j.Some? && TranslationKeys[j.value] == TranslationKeys[i];
  }

  /** All four tables have the same key set, the 24 translation keys. */
  lemma TablesShareKeys(l: Language, key: string)
    ensures Entry(l, key).Some? <==> key in TranslationKeys
    ensures Entry(l, key).Some? <==> Entry(En, key).Some?
  {
  }

  /** Every text of every table is a real translation: non-empty and different
      from its key. */
  lemma EntriesTranslated(l: Language, i: int)
    requires 0 <= i < |TranslationKeys|
    ensures Texts(l)[i] != "" && Texts(l)[i] != TranslationKeys[i]
  {
    match l
    case En => EnglishTextsTranslated();
    case Hi => HindiTextsTranslated();
    case Pa => PunjabiTextsTranslated();
    case Te => TeluguTextsTranslated();
  }

  /** Every English text is non-empty and differs from its key. */
  lemma EnglishTextsTranslated()
    ensures forall i :: 0 <= i < |TranslationKeys| ==> EnglishTexts[i] != "" && EnglishTexts[i] != TranslationKeys[i]
  {
  }

  /** Every Hindi text is non-empty and differs from its key. */
  lemma HindiTextsTranslated()
    ensures forall i :: 0 <= i < |TranslationKeys| ==> HindiTexts[i] != "" && HindiTexts[i] != TranslationKeys[i]
  {
  }

  /** Every Punjabi text is non-empty and differs from its key. */
  lemma PunjabiTextsTranslated()
    ensures forall i :: 0 <= i < |TranslationKeys| ==> PunjabiTexts[i] != "" && PunjabiTexts[i] != TranslationKeys[i]
  {
  }

  /** Every Telugu text is non-empty and differs from its key. */
  lemma TeluguTextsTranslated()
    ensures forall i :: 0 <= i < |TranslationKeys| ==> TeluguTexts[i] != "" && TeluguTexts[i] != TranslationKeys[i]
  {
  }

  /** In every language, `t` returns the key unchanged exactly when the key is
      not one of the 24 translation keys; a known key gets its text. */
  lemma LookupFallsBackExactlyOnUnknownKeys(l: Language, key: string)
    ensures Lookup(l, key) == key <==> key !in TranslationKeys
    ensures forall i :: 0 <= i < |TranslationKeys| && TranslationKeys[i] == key ==> Lookup(l, key) == Texts(l)[i]
  {
    if key in TranslationKeys {
      var i :| 0 <= i < |TranslationKeys| && TranslationKeys[i] == key;
      EntryAt(l, i);
      EntriesTranslated(l, i);
      TranslationKeysDistinct();
    }
  }

  /** The soil value "alluvial", which the farm form offers, has no entry in any
      table, so `t` shows the raw value in every language. */
  lemma AlluvialIsUntranslated(l: Language)
    ensures "alluvial" !in TranslationKeys && Entry(l, "alluvial") == None
    ensures Lookup(l, "alluvial") == "alluvial"
  {
  }

  /** The lookup under English and Hindi for the key "soil". */
  lemma SoilLabel()
    ensures Lookup(En, "soil") == "Soil"
    ensures Lookup(Hi, "soil") == "मिट्टी"
  {
    assert TranslationKeys[2] == "soil";
    assert EnglishTexts[2] == "Soil" && HindiTexts[2] == "मिट्टी";
    EntryAt(En, 2);
    EntryAt(Hi, 2);
  }

  /** The state of the language provider: the active language, which only
      `SetCurrentLanguage` changes. */
  class LanguageProvider {
    var currentLanguage: Language

    /** A provider starts with Hindi active. */
    constructor ()
      ensures currentLanguage == DefaultLanguage
    {
      currentLanguage := DefaultLanguage;
    }

    /** The `t` function handed to the components, read against the active language. */
    function T(key: string): string
      reads this
    {
      Lookup(currentLanguage, key)
    }

    /** Makes `lang` the active language; from then on every `t(key)` is the
        lookup under `lang`. */
    method SetCurrentLanguage(lang: Language)
      modifies this
      ensures currentLanguage == lang
      ensures forall key :: T(key) == Lookup(lang, key)
    {
      currentLanguage := lang;
    }
  }

  /** A switch of language is reflected by the next lookup: with English active
      "soil" reads "Soil", and after switching to Hindi it reads "मिट्टी". */
  method SwitchLanguageScenario() returns (before: string, after: string)
    ensures before == "Soil" && after == "मिट्टी"
  {
    var provider := new LanguageProvider();
    provider.SetCurrentLanguage(En);
    before := provider.T("soil");
    provider.SetCurrentLanguage(Hi);
    after := provider.T("soil");
    SoilLabel();
  }

  // The lookup as JavaScript evaluates it. `translations[lang][key]` is a
  // property read on a plain object literal, so a key the table does not have
  // is looked up further along the prototype chain, in `Object.prototype`.

  /** The values a property read on a table object can produce: a string entry,
      `undefined`, or one of `Object.prototype`'s members (functions, and the
      prototype object itself under `__proto__`), all of which are objects. */
  datatype JsValue = JsString(s: string) | JsUndefined | JsObject

  /** The property names every plain object inherits from `Object.prototype`. */
  const ObjectPrototypeMembers: set<string> := {
    "constructor", "hasOwnProperty", "isPrototypeOf", "propertyIsEnumerable",
    "toLocaleString", "toString", "valueOf", "__proto__",
    "__defineGetter__", "__defineSetter__", "__lookupGetter__", "__lookupSetter__"
  }

  /** `translations[l][key]` as JavaScript reads it: an own entry, else an
      inherited member, else `undefined`. */
  function PropertyGet(l: Language, key: string): JsValue
  {
    match Entry(l, key)
    case Some(text) => JsString(text)
    case None => if key in ObjectPrototypeMembers then JsObject else JsUndefined
  }

  /** JavaScript truthiness of the values above. */
  predicate Truthy(v: JsValue)
  {
    match v
    case JsString(s) => s != ""
    case JsUndefined => false
    case JsObject => true
  }

  /** `t(key)` as written: `translations[currentLanguage][key] || key`. */
  function LookupAsWritten(l: Language, key: string): (r: JsValue)
    ensures r.JsString? || r.JsObject?
    ensures r.JsObject? <==> key !in TranslationKeys && key in ObjectPrototypeMembers
  {
    var v := PropertyGet(l, key);
    if Truthy(v) then v else JsString(key)
  }

  /** For every key that is not an inherited member name, the lookup as written
      and `Lookup` agree. */
  lemma AsWrittenAgreesOffPrototype(l: Language, key: string)
    requires key !in ObjectPrototypeMembers
    ensures LookupAsWritten(l, key) == JsString(Lookup(l, key))
  {
  }

  /** The key "constructor" is in no table, yet `t("constructor")` as written
      returns `Object.prototype.constructor`, a function, where the fall-back
      promises the string "constructor". */
  lemma ConstructorKeyEscapesFallback(l: Language)
    ensures LookupAsWritten(l, "constructor") == JsObject
    ensures Lookup(l, "constructor") == "constructor"
  {
    assert "constructor" !in TranslationKeys;
  }
}
