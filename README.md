# Crop advisory front end: translation resolver and farm form

This project models the two pieces of logic in a client-side crop-advisory web
application:

- **The translation resolver** (module `Translations`, `translations.dfy`). There are
  four display languages (English, Hindi, Punjabi, Telugu) and one constant table per
  language. Each table maps a translation key to localised text; all four tables list
  the same 24 keys in the same order. The active language starts as Hindi and changes
  only through `setCurrentLanguage`. The lookup `t(key)` returns the active table's
  entry, or the key itself when the entry is missing or empty. `Lookup` is the
  specification of `t`, and `LanguageProvider.T` is `t` read against the provider's
  state. The lookup as the code writes it also reads members inherited from
  `Object.prototype`; this is recorded under "## Findings".
- **The farm input form** (module `FarmForm`, `farm_form.dfy`). The form keeps a record
  of location, soil type, season and optional coordinates, plus an
  `isDetectingLocation` flag. It has one handler per field edit. Location detection is
  asynchronous: one handler starts it, and two callbacks end it (a position fix, then
  reverse geocoding, or an error). The submit handler passes the record on only when
  location, soil type and season are all non-empty.

The form component is a class. Its fields are the record and the flag, and each
handler is a method. Every handler that changes state states its new state in full. It
also states that its effect equals `Step`, a pure function of the old state and the
event; `HandleSubmit` changes no state, so it has no event and states its result and
the unchanged state instead. `DetectedLocationName` is the specification of the
location text a position fix produces. `Run` folds
`Step` over a sequence of events, so that any interleaving of edits and detection
callbacks can be modelled. The lemmas about `Run` state what holds after every such
interleaving. The outcomes of the browser's geolocation service and of the
reverse-geocoding request arrive as handler parameters (`GeocodeOutcome`, the
coordinates). The host's number-to-text conversions are a `NumberFormat` value that
is fixed when the component is created.

Module `Wrappers` (`wrappers.dfy`) holds the `Option` datatype.

## Model

| member | source | states |
|---|---|---|
| `Translations.Parse` | src/contexts/LanguageContext.tsx:3 | a string is a language exactly when it is one of "en", "hi", "pa", "te", and it reads back as that code |
| `Translations.Lookup` | src/contexts/LanguageContext.tsx:167-169 | a present, non-empty entry is returned; a missing or empty entry gives the key unchanged; a non-empty key never gives the empty string |
| `Translations.Entry` | src/contexts/LanguageContext.tsx:168 | the own-property read `translations[l][key]`: there is an entry exactly when the key is one of the 24 translation keys, and it is that language's text at the key's position |
| `Translations.TranslationKeysDistinct` | src/contexts/LanguageContext.tsx:12-48 | no translation key is listed twice |
| `Translations.EntryAt` | src/contexts/LanguageContext.tsx:11-160 | each table maps the i-th key to its i-th text, as the object literals pair them |
| `Translations.TablesShareKeys` | src/contexts/LanguageContext.tsx:11-160 | each of the four tables has an entry for a key exactly when the English table does, namely for the 24 translation keys |
| `Translations.EntriesTranslated` | src/contexts/LanguageContext.tsx:11-160 | every entry of every table is non-empty and differs from its key |
| `Translations.EnglishTextsTranslated` | src/contexts/LanguageContext.tsx:12-48 | every English entry is non-empty and differs from its key |
| `Translations.HindiTextsTranslated` | src/contexts/LanguageContext.tsx:49-85 | every Hindi entry is non-empty and differs from its key |
| `Translations.PunjabiTextsTranslated` | src/contexts/LanguageContext.tsx:86-122 | every Punjabi entry is non-empty and differs from its key |
| `Translations.TeluguTextsTranslated` | src/contexts/LanguageContext.tsx:123-159 | every Telugu entry is non-empty and differs from its key |
| `Translations.LookupFallsBackExactlyOnUnknownKeys` | src/contexts/LanguageContext.tsx:167-169 | in every language, `t(key)` equals the key if and only if the key is not one of the 24 translation keys; a known key gets its table entry |
| `Translations.AlluvialIsUntranslated` | src/contexts/LanguageContext.tsx:27-32 | "alluvial" is in no table, so `t("alluvial")` is "alluvial" in every language |
| `Translations.SoilLabel` | src/contexts/LanguageContext.tsx:16-53 | "soil" reads "Soil" in English and "मिट्टी" in Hindi |
| `Translations.LanguageProvider.constructor` | src/contexts/LanguageContext.tsx:165 | the active language starts as Hindi |
| `Translations.LanguageProvider.SetCurrentLanguage` | src/contexts/LanguageContext.tsx:165-172 | the setter makes `lang` active, and every later `t(key)` is the lookup under `lang` |
| `Translations.SwitchLanguageScenario` | src/contexts/LanguageContext.tsx:165-172 | with English active "soil" reads "Soil"; after switching to Hindi it reads "मिट्टी" |
| `Translations.LookupAsWritten` | src/contexts/LanguageContext.tsx:168 | the JavaScript lookup gives a non-string exactly when the key is not in the table and is an inherited `Object.prototype` member name |
| `Translations.AsWrittenAgreesOffPrototype` | src/contexts/LanguageContext.tsx:168 | for every other key, the JavaScript lookup gives the string `Lookup` gives |
| `Translations.ConstructorKeyEscapesFallback` | src/contexts/LanguageContext.tsx:168 | `t("constructor")` as written gives a function, while the fall-back promises "constructor" |
| `FarmForm.FormValuesTranslation` | src/components/FarmForm.tsx:22-35 | every soil value the form offers has a translation except "alluvial", which `t` shows raw; every season value has a translation |
| `FarmForm.GeocodeFallbacks` | src/components/FarmForm.tsx:62-99 | a non-OK answer falls back exactly as a thrown error does (coordinates to four decimals); an empty OK answer gives the interpolated coordinates; an answer naming Bengaluru, IN gives "Bengaluru, IN" |
| `FarmForm.FarmFormComponent.constructor` | src/components/FarmForm.tsx:38-43 | a new form has empty location, soil type and season, no coordinates, and is not detecting |
| `FarmForm.FarmFormComponent.OnLocationChange` | src/components/FarmForm.tsx:148 | replaces the location only; coordinates and flag are unchanged |
| `FarmForm.FarmFormComponent.OnSoilTypeChange` | src/components/FarmForm.tsx:171 | replaces the soil type only |
| `FarmForm.FarmFormComponent.OnSeasonChange` | src/components/FarmForm.tsx:189 | replaces the season only |
| `FarmForm.FarmFormComponent.DetectLocation` | src/components/FarmForm.tsx:46-57 | without geolocation nothing changes and no position is requested; with it the flag becomes true and a position is requested; the record is untouched |
| `FarmForm.FarmFormComponent.OnPosition` | src/components/FarmForm.tsx:58-101 | sets the location text from the geocoding outcome and both coordinates, keeps soil type and season, and clears the flag |
| `FarmForm.FarmFormComponent.OnPositionError` | src/components/FarmForm.tsx:103-110 | clears the flag and leaves the record unchanged |
| `FarmForm.FarmFormComponent.HandleSubmit` | src/components/FarmForm.tsx:114-125 | `onSubmit` receives the current record, once, exactly when location, soil type and season are all non-empty; the form state never changes |
| `FarmForm.SubmitScenario` | src/components/FarmForm.tsx:114-125 | a fresh form is not submitted; after typing "Pune" and choosing "loam" and "rabi", `onSubmit` receives exactly those values |
| `FarmForm.DetectionScenario` | src/components/FarmForm.tsx:58-101 | detection at (12.9716, 77.5946) named Bengaluru, IN fills that name and those coordinates, and keeps a soil type chosen while detecting; a failed geocode fills "12.9716, 77.5946" |
| `FarmForm.StepSelection` | src/components/FarmForm.tsx:171-189 | one event sets a dropdown's field when it is a selection in that dropdown, and otherwise keeps it |
| `FarmForm.RunSelectionIsLast` | src/components/FarmForm.tsx:171-189 | after any sequence of events a dropdown's field is the value of its last selection, or the starting value if there was none |
| `FarmForm.RunSoilTypeIsLastSelection` | src/components/FarmForm.tsx:171 | after any sequence of events the soil type is the last selected value, or the starting value if none was selected |
| `FarmForm.RunSeasonIsLastSelection` | src/components/FarmForm.tsx:189 | after any sequence of events the season is the last selected value, or the starting value if none was selected |
| `FarmForm.StepCoordinates` | src/components/FarmForm.tsx:71-93 | only a position fix changes the coordinates, and it sets both |
| `FarmForm.RunCoordinatesAreLastFix` | src/components/FarmForm.tsx:71-93 | after any sequence of events the coordinates are those of the last position fix, or the starting ones if there was none; no edit clears them |
| `FarmForm.CoordinatesSetTogether` | src/components/FarmForm.tsx:71-93 | from the initial form, latitude is set exactly when longitude is |
| `FarmForm.RunDetectingFlag` | src/components/FarmForm.tsx:56-104 | after any sequence of events the flag is set exactly when a supported detection started and no position callback came after it (or the flag was already set and no callback came) |

## Left out

- Rendering, styling, toast notifications and the React context plumbing are not modelled. This includes the `useLanguage` error thrown outside a provider.
- The dashboard, the results and index pages, and the language dropdown are not modelled. The dropdown only forwards a chosen language to `setCurrentLanguage`.
- The detect button is disabled while a detection is pending. That is rendering, so `DetectLocation` is modelled as the handler is written, with no guard.
- The browser's geolocation service, the `fetch` to the reverse-geocoding endpoint and JSON parsing are not modelled. Their results are handler parameters. A place entry with a missing `name` or `country` field is not modelled: JavaScript would show "undefined" there.
- Coordinates are exact reals, not IEEE doubles. Template interpolation and `toFixed(4)` are the two functions of a `NumberFormat` parameter, with no fixed text.
- The `translations` object is modelled as one shared key list and one list of texts per language, paired by position (`Texts`, `Entry`), rather than as nested maps. All four object literals list the same keys in the same order, so this pairing is exact, and `EntryAt` shows that each table maps each key to its own text.
- Translations.Lookup: for the empty key there is no entry, so the fall-back returns the empty key and `t("")` is "". The contract therefore promises a non-empty result only for non-empty keys.

## Findings

| source | as written | input that shows it | evidently intended | confidence | as-written member | corrected member |
|---|---|---|---|---|---|---|
| src/contexts/LanguageContext.tsx:168 | `translations[currentLanguage][key] \|\| key` is a property read on a plain object, so a missing key is also looked up in `Object.prototype` | `t("constructor")` (also "toString", "valueOf", "__proto__", …) returns a function or object, not a string | a key with no entry in the table comes back unchanged, as the `(key: string) => string` type promises | not executed; every call site passes a literal table key, so the screens are not affected | `Translations.ConstructorKeyEscapesFallback` | `Translations.LookupFallsBackExactlyOnUnknownKeys` |
