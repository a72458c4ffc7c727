/**
 * The two Translator drafts side by side: where loading and argument
 * resolution agree and where they part, plus concrete calls that exhibit
 * the defects of the `_` alias and of the null starting section of
 * `Ext.i18n.Translator.translate`, next to their corrected counterparts.
 */
module DraftComparison {
  import opened JsValues
  import opened TranslationIndex
  import opened StringFormat
  import opened TranslatorSpecScenario
  import Up = I18nTranslator
  import Ext = ExtI18nTranslator

  // ---------------------------------------------------------------------------
  // Loading order

  /** Two records of a batch that write the same entry. */
  predicate SameSlot(r1: Record, r2: Record, current: Option<string>)
  {
    r1.section == r2.section
    && CompositeKey(EffectiveLang(r1, current), r1.key) == CompositeKey(EffectiveLang(r2, current), r2.key)
  }

  /** No entry is written twice by the batch. */
  predicate NoRepeatedSlot(records: seq<Record>, current: Option<string>)
  {
    forall i, j :: 0 <= i < j < |records| ==> !SameSlot(records[i], records[j], current)
  }

  /**
   * Without repeated entries the order of a batch does not matter: the
   * store-load handler and `addTranslations` leave every lookup the same.
   */
  lemma OrderIrrelevantWithoutRepeats(idx: Index, records: seq<Record>, current: Option<string>,
                                      name: string, k: string)
    requires NoRepeatedSlot(records, current)
    ensures Lookup(LoadInOrder(idx, records, current), name, k)
         == Lookup(LoadReversed(idx, records, current), name, k)
  {
    if j :| 0 <= j < |records| && Writes(records[j], current, name, k) {
      forall i | 0 <= i < |records| && i != j
        ensures !Writes(records[i], current, name, k)
      {
        if Writes(records[i], current, name, k) {
          if i < j {
            assert SameSlot(records[i], records[j], current);
          } else {
            assert SameSlot(records[j], records[i], current);
          }
        }
      }
      LoadInOrderLastWins(idx, records, current, j, name, k);
      LoadReversedFirstWins(idx, records, current, j, name, k);
    } else {
      LoadInOrderUntouched(idx, records, current, name, k);
      LoadReversedUntouched(idx, records, current, name, k);
    }
  }

  /** A key repeated within one batch: the upper draft keeps the last value, the lower the first. */
  lemma DraftsDisagreeOnRepeats()
    ensures var batch := [Record("k", "one", "fi", ""), Record("k", "two", "fi", "")];
      && Translated(LoadInOrder(Empty, batch, None), "fi", "k", "") == "two"
      && Translated(LoadReversed(Empty, batch, None), "fi", "k", "") == "one"
  {
    var batch := [Record("k", "one", "fi", ""), Record("k", "two", "fi", "")];
    LoadInOrderLastWins(Empty, batch, None, 1, "", "fik");
    LoadReversedFirstWins(Empty, batch, None, 0, "", "fik");
  }

  // ---------------------------------------------------------------------------
  // Argument resolution

  /**
   * The drafts read the optional arguments alike: the same params, and the
   * same section wherever the lower draft chooses one; its null section is
   * exactly where the upper draft keeps the default one.
   */
  lemma ResolutionsAgree(args: seq<Arg>)
    ensures Ext.Resolve(args).params == Up.Resolve(args).params
    ensures Ext.Resolve(args).section.Some? ==> Ext.Resolve(args).section.value == Up.Resolve(args).section
    ensures Ext.Resolve(args).section.None? ==> Up.Resolve(args).section == ""
    ensures Ext.SectionUsed(Ext.Resolve(args), true) == Some(Up.Resolve(args).section)
  {
  }

  // ---------------------------------------------------------------------------
  // Counterexamples

  /** The one-record batch of the registry test. */
  const OneRecord := [Record("a", "a fi", "fi", "")]

  /**
   * `_('a')` on `I18n.Translator` as written returns nothing, where the
   * alias it claims to be returns "a fi".
   */
  method UpperUnderscoreDiscrepancy() returns (asWritten: Option<string>, corrected: string)
    ensures asWritten == None
    ensures corrected == "a fi"
  {
    var t := new Up.Translator(Some("fi"), Some(OneRecord));
    TranslatedAfterLoad(Empty, OneRecord, Some("fi"), 0, "fi", "a", "");
    asWritten := t.UnderscoreAsWritten("a", []);
    corrected := t.Underscore("a", []);
  }

  /** The same alias defect in `Ext.i18n.Translator`. */
  method LowerUnderscoreDiscrepancy() returns (asWritten: Option<string>, corrected: Ext.Outcome)
    ensures asWritten == None
    ensures corrected == Ext.Returned("a fi")
  {
    var t := new Ext.Translator(Some("fi"), Some(OneRecord));
    LoadReversedFirstWins(Empty, OneRecord, Some("fi"), 0, "", "fia");
    asWritten := t.UnderscoreAsWritten("a", []);
    corrected := t.Underscore("a", []);
  }

  /** The template record of the fixture is what a reversed load finds for the params key. */
  lemma ReversedFixtureFindsTemplate()
    ensures Translated(LoadReversed(Empty, TestData, Some("fi")), "fi", ParamsKey, "") == "aaa {0} bbb {1} ccc {2}"
  {
    LoadReversedFirstWins(Empty, TestData, Some("fi"), 4, "", CompositeKey("fi", ParamsKey));
  }

  /**
   * `translate(key, ['A','B','C'])` on `Ext.i18n.Translator` loaded with the
   * test fixture throws, and leaves the caller's array alone.
   */
  method LowerParamsWithoutSection() returns (asWritten: Ext.Outcome, items: seq<string>)
    ensures asWritten == Ext.TypeError
    ensures items == ["A", "B", "C"]
  {
    var t := new Ext.Translator(Some("fi"), Some(TestData));
    var p := new JsArray(["A", "B", "C"]);
    asWritten := t.Translate(ParamsKey, [Arr(p)]);
    items := p.items;
  }

  /** The same call, starting from the default section, formats the template as `I18n.Translator` does. */
  method LowerParamsWithoutSectionCorrected() returns (corrected: Ext.Outcome)
    ensures corrected == Ext.Returned("aaa A bbb B ccc C")
  {
    var t := new Ext.Translator(Some("fi"), Some(TestData));
    var p := new JsArray(["A", "B", "C"]);
    ReversedFixtureFindsTemplate();
    FixtureFormatsTemplate();
    corrected := t.TranslateFixed(ParamsKey, [Arr(p)]);
  }

  /** A third argument that is not a string (here `null`) leaves the lower draft without a section too. */
  method LowerNonStringSection() returns (asWritten: Ext.Outcome)
    ensures asWritten == Ext.TypeError
  {
    var t := new Ext.Translator(Some("fi"), Some(TestData));
    var p := new JsArray(["A", "B", "C"]);
    asWritten := t.Translate(ParamsKey, [Arr(p), Nil]);
  }

  /** The same call, starting from the default section, formats the default-section template. */
  method LowerNonStringSectionCorrected() returns (corrected: Ext.Outcome)
    ensures corrected == Ext.Returned("aaa A bbb B ccc C")
  {
    var t := new Ext.Translator(Some("fi"), Some(TestData));
    var p := new JsArray(["A", "B", "C"]);
    ReversedFixtureFindsTemplate();
    FixtureFormatsTemplate();
    corrected := t.TranslateFixed(ParamsKey, [Arr(p), Nil]);
  }
}
