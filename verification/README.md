# Ext.i18n Translator in Dafny

This project models the Translator of Ext.i18n, a small internationalisation
helper for Ext JS. The repository holds two drafts of the class:

- `I18n.Translator` (src/I18n/Translator.js) loads a batch of records through
  an Ext store's `load` handler and applies them in array order. Its sections
  are plain objects.
- `Ext.i18n.Translator` (src/i18n/Translator.js) loads a batch in
  `addTranslations`, walking it from the last record to the first. Its
  sections are `Ext.util.HashMap`s.

Both drafts keep the same state:

- `language`: null or a string;
- `defaultSection`: a map from a composite key to a translated value;
- `sections`: a map from section name to such a map.

A record `{key, value, lang?, section?}` is stored at the composite key
`(rec.lang || language) + rec.key`, with no separator, in
`getSection(rec.section)`. `translate(key, ...)` does the following:

- It returns the key when no language is set.
- Otherwise it sorts its optional arguments into params and a section.
- It looks up `language + key` and falls back to the key.
- When params were given, it prepends the result to the caller's array and
  substitutes `{i}` placeholders with `Ext.String.format`.

The files:

- `js_values.dfy` (`JsValues`): records, the loosely typed arguments, the
  caller's array as a class (so that `unshift` changes it in place),
  JavaScript truthiness and the composite key. Two plain definitions live
  here too:
  - `LangText` is the text JavaScript's `+` makes of the language, so that
    `null + key` gives "null" + key (src/I18n/Translator.js:246);
  - `EffectiveLang` is `rec.lang || language` (src/I18n/Translator.js:192).
  What they mean for loading is stated by lemmas in `TranslationIndex`.
- `string_format.dfy` (`StringFormat`): placeholder substitution as a pure
  function. Its reference meaning is a template written as pieces.
- `translation_index.dfy` (`TranslationIndex`): the index as a value, and the
  functions the two classes are proved against. These are `getSection`'s
  effect, one record's store, a batch loaded in order or in reverse, and the
  pre-format result of a lookup. It also holds the lemmas about loading and
  looking up.
- `i18n_translator.dfy` (`I18nTranslator`): the class for src/I18n.
- `ext_i18n_translator.dfy` (`ExtI18nTranslator`): the class for src/i18n.
  The two call shapes that leave its section null end in an explicit
  `TypeError` outcome.
- `translator_spec_scenario.dfy` (`TranslatorSpecScenario`): the fixture of
  tests/spec/TranslatorSpec.js and one method per `it` of its `Translator`
  suite.
- `draft_comparison.dfy` (`DraftComparison`): where the drafts agree and where
  they differ, and concrete calls for the findings below.

Every state-changing method is specified by these functions. Each
`translate` is specified by a two-state predicate, `TranslatedAs`, which gives
the returned text, the new index and the new contents of the caller's array.

## Model

| member | source | states |
|---|---|---|
| JsValues.JsArray.constructor | src/I18n/Translator.js:252-255 | a caller's params array holds the given items |
| JsValues.CompositeKeyCollision | src/I18n/Translator.js:195 | two different (language, key) pairs, ("a","bc") and ("ab","c"), give one composite key |
| JsValues.CompositeKeyInjective | src/I18n/Translator.js:246 | for languages of equal length, equal composite keys hold exactly when both language and key are equal |
| StringFormat.Placeholder | src/I18n/Translator.js:254 | a `{digits}` placeholder either stays as written or becomes the parameter its canonical index names |
| StringFormat.Format | src/I18n/Translator.js:252-255 | with no parameters the text comes back unchanged |
| StringFormat.FormatLiteralPrefix | src/I18n/Translator.js:254 | text without `{` passes through formatting unchanged in front of any rest |
| StringFormat.FormatLiteralChar | src/I18n/Translator.js:254 | a character other than `{` is copied and the scan continues after it |
| StringFormat.FormatBraced | src/I18n/Translator.js:254 | a braced run of digits becomes what `Placeholder` makes of it, and the scan resumes after the closing brace |
| StringFormat.FormatSlot | src/I18n/Translator.js:254 | `{i}` becomes `params[i]` when that exists and stays as written otherwise; the scan resumes after it |
| StringFormat.FormatRender | src/I18n/Translator.js:252-255 | formatting a well-formed template equals filling its pieces: every slot `i` below the parameter count gets `params[i]`, and everything else is kept |
| StringFormat.FormatWithoutPlaceholders | src/I18n/Translator.js:254 | text with no `{` is unchanged by formatting |
| TranslationIndex.Ensure | src/I18n/Translator.js:274-284 | `getSection` creates an empty section exactly when a truthy name is absent; every other section and the default section are unchanged; a falsy or present name changes nothing |
| TranslationIndex.Store | src/I18n/Translator.js:195 | after a write, the written entry holds the value; every other (section, key) lookup is unchanged; the only section that can be added is the named one |
| TranslationIndex.ApplyLookup | src/I18n/Translator.js:191-196 | one record sets exactly the entry it writes and leaves every other lookup unchanged |
| TranslationIndex.EnsureIdempotent | src/I18n/Translator.js:274-284 | a repeated `getSection(name)` creates nothing |
| TranslationIndex.EnsureKeepsLookups | src/I18n/Translator.js:274-284 | creating a section changes no lookup |
| TranslationIndex.LoadInOrderLastWins | src/I18n/Translator.js:187-199 | in an in-order batch, the last record that writes an entry decides its value |
| TranslationIndex.LoadInOrderUntouched | src/I18n/Translator.js:187-199 | an entry that no record of the batch writes keeps its previous value, or stays absent |
| TranslationIndex.MentionedSectionsMembers | src/I18n/Translator.js:193 | the names a batch mentions are exactly the truthy `section` fields of its records |
| TranslationIndex.LoadInOrderSections | src/I18n/Translator.js:187-199 | loading adds exactly the truthy section names the batch mentions and removes none |
| TranslationIndex.LoadInOrderCumulative | src/I18n/Translator.js:208-214 | two successive loads under one language act as one load of the concatenated batch |
| TranslationIndex.LoadReversedIsReverse | src/i18n/Translator.js:144-150 | the count-down loop is the in-order load of the reversed batch |
| TranslationIndex.LoadReversedFirstWins | src/i18n/Translator.js:144-150 | within one `addTranslations` batch, the first record that writes an entry decides its value |
| TranslationIndex.LoadReversedUntouched | src/i18n/Translator.js:144-150 | an entry that no record of the batch writes keeps its previous value, or stays absent |
| TranslationIndex.LoadReversedSections | src/i18n/Translator.js:144-150 | the reversed load adds exactly the truthy section names the batch mentions and removes none |
| TranslationIndex.LoadReversedCumulative | src/i18n/Translator.js:134-155 | sections are never cleared: two calls under one language act as one batch with the second call's records first |
| TranslationIndex.LoadReversedLaterCallWins | src/i18n/Translator.js:134-155 | across two calls, the later call's first writer of an entry decides its value |
| TranslationIndex.TranslatedAfterLoad | src/I18n/Translator.js:246-249 | after a load, a key stored under the active language in a section translates to the value of the last record that wrote it |
| TranslationIndex.TranslatedFallsBack | src/I18n/Translator.js:246-249 | when no record stored `language + key` in the section, the result is the key itself |
| TranslationIndex.NullLanguageStoresUnderNull | src/I18n/Translator.js:189-195 | a record without `lang` loaded while the language is null is stored under "null" + key, and found under the language "null" |
| TranslationIndex.OwnLangOverridesBatch | src/I18n/Translator.js:192-195 | a record with its own truthy `lang` is found under that language, whatever the batch language |
| TranslationIndex.BatchLangFillsIn | src/I18n/Translator.js:189-195 | a record without `lang` is found under the language captured for the batch |
| TranslationIndex.CollidingLookup | src/I18n/Translator.js:246-249 | a record for language "a" and key "bc" is what the key "c" finds under language "ab" |
| I18nTranslator.Resolve | src/I18n/Translator.js:224-244 | one extra argument: an array gives params with the default section, a string names the section, and a falsy non-string (`null`) gives the default section; two: an array second argument gives params, and only a string third argument names the section; any other count: default section, no params |
| I18nTranslator.Translator.constructor | src/I18n/Translator.js:148-163 | a truthy initial language is set, else the language stays null; the data array, if any, is loaded in order under that language into an empty index |
| I18nTranslator.Translator.OnStoreLoad | src/I18n/Translator.js:187-199 | the index becomes the in-order load of the batch under the language read at the start; the language is unchanged |
| I18nTranslator.Translator.StoreRecord | src/I18n/Translator.js:191-196 | one record is written at `(lang or current) + key` in its section, created if needed |
| I18nTranslator.Translator.LoadTranslations | src/I18n/Translator.js:208-214 | a non-array gives `false` and no change; an array is loaded in order and nothing is returned |
| I18nTranslator.Translator.Translate | src/I18n/Translator.js:221-258 | no truthy language: returns the key and changes nothing; otherwise the resolved section is created if needed, the result is the stored value or the key, and with params the caller's array gains that result at its front and the returned text is it formatted with the original params |
| I18nTranslator.Translator.UnderscoreAsWritten | src/I18n/Translator.js:264-266 | `_` returns no value and leaves the language and the index unchanged |
| I18nTranslator.Translator.Underscore | src/I18n/Translator.js:260-266 | the alias as documented: exactly the effect and result of `translate` |
| I18nTranslator.Translator.GetSection | src/I18n/Translator.js:274-284 | returns the named section, or the default for a falsy name, and applies `getSection`'s creation effect |
| I18nTranslator.Translator.SetLanguage | src/I18n/Translator.js:290-292 | the language becomes the argument; the index is unchanged |
| I18nTranslator.Translator.GetLanguage | src/I18n/Translator.js:298-300 | returns the current language |
| ExtI18nTranslator.Resolve | src/i18n/Translator.js:165-187 | one extra argument: an array gives params and leaves the section null, a string names the section, and a falsy non-string gives the default section; two: an array second argument gives params, and the section is the third argument when it is a string and null otherwise; any other count: default section, no params |
| ExtI18nTranslator.NullSectionCases | src/i18n/Translator.js:165-187 | the section stays null exactly for those two call shapes |
| ExtI18nTranslator.Translator.constructor | src/i18n/Translator.js:92-127 | a truthy initial language is set; the data array, if any, is loaded last-record-first under that language into an empty index |
| ExtI18nTranslator.Translator.AddTranslations | src/i18n/Translator.js:134-155 | a non-array gives `false` and no change; an array is loaded last-record-first under the language read at the start, and `true` is returned |
| ExtI18nTranslator.Translator.AddRecord | src/i18n/Translator.js:145-149 | one record is added at `(lang or currLang) + key` in its section, created if needed |
| ExtI18nTranslator.Translator.Translate | src/i18n/Translator.js:162-201 | as in the other draft, except that a null section gives a TypeError and no change |
| ExtI18nTranslator.Translator.TranslateWith | src/i18n/Translator.js:162-201 | the body of `translate`, where the initial section is either null or the default section |
| ExtI18nTranslator.Translator.TranslateFixed | src/i18n/Translator.js:162-201 | with the default section as the starting point, every call returns a string, with the same effect as the other draft |
| ExtI18nTranslator.Translator.UnderscoreAsWritten | src/i18n/Translator.js:207-209 | `_` returns no value and leaves the language and the index unchanged |
| ExtI18nTranslator.Translator.Underscore | src/i18n/Translator.js:203-209 | the alias as documented, over the corrected `translate`: always returns a string |
| ExtI18nTranslator.Translator.GetSection | src/i18n/Translator.js:216-226 | as in the other draft |
| ExtI18nTranslator.Translator.SetLanguage | src/i18n/Translator.js:232-234 | the language becomes the argument; the index is unchanged |
| ExtI18nTranslator.Translator.GetLanguage | src/i18n/Translator.js:240-242 | returns the current language |
| TranslatorSpecScenario.FixtureFindsA | tests/spec/TranslatorSpec.js:31-33 | the loaded fixture maps "a" under "fi" to "a fi" |
| TranslatorSpecScenario.FixtureFindsBInSection | tests/spec/TranslatorSpec.js:35-37 | in section "test", "b" under "fi" is "b test fi" |
| TranslatorSpecScenario.FixtureFindsTemplate | tests/spec/TranslatorSpec.js:39-41 | the params key under "fi" is the template "aaa {0} bbb {1} ccc {2}" |
| TranslatorSpecScenario.FixtureFindsTemplateInSection | tests/spec/TranslatorSpec.js:43-45 | in section "test", the params key is "xxx {0} yyy {1} zzz {2}" |
| TranslatorSpecScenario.FixtureFindsGerman | tests/spec/TranslatorSpec.js:47-50 | "b" under "de" is "b de" |
| TranslatorSpecScenario.FixtureMisses | tests/spec/TranslatorSpec.js:57-59 | "not exists" falls back to itself |
| TranslatorSpecScenario.FormatThreeSlots | tests/spec/TranslatorSpec.js:39-45 | three canonical placeholders between brace-free texts are replaced by three params in order |
| TranslatorSpecScenario.FixtureFormatsTemplate | tests/spec/TranslatorSpec.js:39-41 | the template with A, B, C gives "aaa A bbb B ccc C" |
| TranslatorSpecScenario.FixtureFormatsTemplateInSection | tests/spec/TranslatorSpec.js:43-45 | the section template with X, Y, Z gives "xxx X yyy Y zzz Z" |
| TranslatorSpecScenario.CanTranslateSimpleString | tests/spec/TranslatorSpec.js:31-33 | `translate('a')` gives "a fi" |
| TranslatorSpecScenario.CanTranslateFromSection | tests/spec/TranslatorSpec.js:35-37 | `translate('b', 'test')` gives "b test fi" |
| TranslatorSpecScenario.CanReplacePlaceholders | tests/spec/TranslatorSpec.js:39-41 | `translate(key, ['A','B','C'])` gives "aaa A bbb B ccc C" and leaves the template at the front of the caller's array |
| TranslatorSpecScenario.CanReplacePlaceholdersInSection | tests/spec/TranslatorSpec.js:43-45 | `translate(key, ['X','Y','Z'], 'test')` gives "xxx X yyy Y zzz Z" |
| TranslatorSpecScenario.TranslatesInSelectedLanguage | tests/spec/TranslatorSpec.js:47-50 | after `setLanguage('de')`, `translate('b')` gives "b de" |
| TranslatorSpecScenario.ReturnsKeyWithoutLanguage | tests/spec/TranslatorSpec.js:52-55 | after `setLanguage(null)`, `translate('b')` gives "b" |
| TranslatorSpecScenario.ReturnsKeyWhenNotFound | tests/spec/TranslatorSpec.js:57-59 | `translate('not exists')` gives "not exists" |
| DraftComparison.OrderIrrelevantWithoutRepeats | src/i18n/Translator.js:144-150 | when no entry is written twice in a batch, loading it in order or in reverse gives the same lookups |
| DraftComparison.DraftsDisagreeOnRepeats | src/i18n/Translator.js:144-150 | a key repeated in one batch keeps the last value in src/I18n and the first in src/i18n |
| DraftComparison.ResolutionsAgree | src/i18n/Translator.js:165-187 | both drafts resolve the same params; where src/i18n picks a section it is src/I18n's, and its null section is exactly where src/I18n keeps the default |
| DraftComparison.ReversedFixtureFindsTemplate | src/i18n/Translator.js:144-150 | the test fixture loaded in reverse still maps the params key to its default-section template |
| DraftComparison.UpperUnderscoreDiscrepancy | src/I18n/Translator.js:264-266 | `_('a')` returns nothing, where `translate('a')` returns "a fi" |
| DraftComparison.LowerUnderscoreDiscrepancy | src/i18n/Translator.js:207-209 | `_('a')` returns nothing, where the corrected alias returns "a fi" |
| DraftComparison.LowerParamsWithoutSection | src/i18n/Translator.js:165-190 | `translate(key, ['A','B','C'])` on the test fixture throws and leaves the caller's array as it was |
| DraftComparison.LowerParamsWithoutSectionCorrected | src/i18n/Translator.js:165-198 | the same call, starting from the default section, gives "aaa A bbb B ccc C" |
| DraftComparison.LowerNonStringSection | src/i18n/Translator.js:175-190 | `translate(key, ['A','B','C'], null)` on the test fixture throws |
| DraftComparison.LowerNonStringSectionCorrected | src/i18n/Translator.js:175-198 | the same call, starting from the default section, gives "aaa A bbb B ccc C" |

## Left out

- The registry objects are not part of this model:
  - the `I18n` object (src/I18n/Translator.js:1-136) and the `Ext.i18n` statics;
  - src/I18n/TranslationManager.js and src/i18n/TranslationManager.js.
  They only delegate to `Ext.util.HashMap`, whose code is not shown.
- The Ext store and its events are left out: `buildStore`, `Ext.createByAlias`,
  `loadRawData`/`loadData`, proxy and reader configuration, and
  `fireEvent('load', ...)`.
  - A batch reaches the per-record loop directly as a sequence of records.
  - src/I18n's `load` handler is taken to run synchronously over the batch in
    array order.
  - The empty initial load of an `autoLoad` store is not modelled.
  - A record field missing from the raw object reads as "", which is falsy.
- `config.store`, and constructor arguments other than the language and the
  data array, are not modelled.
- `Ext.String.format` is not part of this model. `StringFormat.Format` stands
  in for it with the pattern `\{(\d+)\}`:
  - a canonical index below the parameter count is replaced;
  - any other placeholder (out of range, or with a leading zero) is left as
    written.
  The tests only use placeholders in range.
- Arguments of `translate` are arrays of strings, strings, or a falsy
  non-string value (`Nil`). Other truthy non-string values (numbers, objects)
  are not modelled as section names.
- The `_` alias receives the `arguments` object as its key. Its text is taken
  as "[object Arguments]". Its result is discarded either way.
- `sections` and `defaultSection` sit on the class prototype, so in the
  source every instance shares one index. Each model instance owns its index.
- Sections are map values. A section that `getSection` hands out is not an
  alias of the stored one; the methods write it back explicitly.
- Section names and composite keys are map keys. Inherited `Object.prototype`
  names (`constructor`, `__proto__`, ...) are not treated specially:
  - src/I18n's `getSection` tests `!this.sections[name]`;
  - its lookup uses `hasOwnProperty`.
- `Ext.util.HashMap.add` is taken to insert or replace, as `section[k] = v`
  does.

## Findings

| source | as written | input that shows it | evidently intended | confidence | as-written member | corrected member |
|---|---|---|---|---|---|---|
| src/I18n/Translator.js:264-266 | `_` passes the `arguments` object as the key and discards the result, so it returns `undefined` | `_('a')` with language "fi" and the record a → "a fi" (DraftComparison.UpperUnderscoreDiscrepancy) | `_` behaves as `translate` with the same arguments | not executed | I18nTranslator.Translator.UnderscoreAsWritten | I18nTranslator.Translator.Underscore |
| src/i18n/Translator.js:207-209 | the same alias defect | `_('a')` with language "fi" and the record a → "a fi" (DraftComparison.LowerUnderscoreDiscrepancy) | `_` behaves as the corrected `translate` (see the next row) with the same arguments | not executed | ExtI18nTranslator.Translator.UnderscoreAsWritten | ExtI18nTranslator.Translator.Underscore |
| src/i18n/Translator.js:165-190 | `section` starts as null. An array second argument in a two-argument call, or a non-string third argument, leaves it null, and `section.containsKey` throws a TypeError | `translate('foo {0} bar {1} baz {2}', ['A','B','C'])` on the test fixture (DraftComparison.LowerParamsWithoutSection; with `null` as third argument, DraftComparison.LowerNonStringSection) | the default section is used, as in src/I18n/Translator.js:224 and as the test at tests/spec/TranslatorSpec.js:39-41 expects | not executed | ExtI18nTranslator.Translator.Translate | ExtI18nTranslator.Translator.TranslateFixed |
