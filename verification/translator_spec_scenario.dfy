/**
 * The behaviour tests/spec/TranslatorSpec.js expects of `I18n.Translator`,
 * proved of the model: the fixture batch, the lookups it makes possible,
 * and one method per `it` that builds the translator from the fixture and
 * makes the same call.
 */
module TranslatorSpecScenario {
  import opened JsValues
  import opened TranslationIndex
  import opened StringFormat
  import opened I18nTranslator

  const ParamsKey := "foo {0} bar {1} baz {2}"

  /** The fixture of the `beforeEach` block. */
  const TestData := [
    Record("a", "a fi", "fi", ""),
    Record("b", "b fi", "fi", ""),
    Record("b", "b de", "de", ""),
    Record("b", "b test fi", "fi", "test"),
    Record(ParamsKey, "aaa {0} bbb {1} ccc {2}", "fi", ""),
    Record(ParamsKey, "xxx {0} yyy {1} zzz {2}", "fi", "test")
  ]

  /** The index the fixture loads into a fresh translator whose language is "fi". */
  function Loaded(): Index
  {
    LoadInOrder(Empty, TestData, Some("fi"))
  }

  // The pre-format lookups the tests rely on, one lemma each.

  lemma FixtureFindsA()
    ensures Translated(Loaded(), "fi", "a", "") == "a fi"
  {
    CompositeKeyInjective("fi", "b", "fi", "a");
    TranslatedAfterLoad(Empty, TestData, Some("fi"), 0, "fi", "a", "");
  }

  lemma FixtureFindsBInSection()
    ensures Translated(Loaded(), "fi", "b", "test") == "b test fi"
  {
    TranslatedAfterLoad(Empty, TestData, Some("fi"), 3, "fi", "b", "test");
  }

  lemma FixtureFindsTemplate()
    ensures Translated(Loaded(), "fi", ParamsKey, "") == "aaa {0} bbb {1} ccc {2}"
  {
    TranslatedAfterLoad(Empty, TestData, Some("fi"), 4, "fi", ParamsKey, "");
  }

  lemma FixtureFindsTemplateInSection()
    ensures Translated(Loaded(), "fi", ParamsKey, "test") == "xxx {0} yyy {1} zzz {2}"
  {
    TranslatedAfterLoad(Empty, TestData, Some("fi"), 5, "fi", ParamsKey, "test");
  }

  lemma FixtureFindsGerman()
    ensures Translated(Loaded(), "de", "b", "") == "b de"
  {
    TranslatedAfterLoad(Empty, TestData, Some("fi"), 2, "de", "b", "");
  }

  lemma FixtureMisses()
    ensures Translated(Loaded(), "fi", "not exists", "") == "not exists"
  {
    TranslatedFallsBack(Empty, TestData, Some("fi"), "fi", "not exists", "");
  }

  /** Three placeholders in brace-free text are replaced by three params. */
  lemma FormatThreeSlots(a: string, b: string, c: string, p: seq<string>)
    requires '{' !in a && '{' !in b && '{' !in c && |p| == 3
    ensures Format(a + (SlotText(0) + (b + (SlotText(1) + (c + (SlotText(2) + ""))))), p)
         == a + (p[0] + (b + (p[1] + (c + (p[2] + "")))))
  {
    var t5 := SlotText(2) + "";
    var t4 := c + t5;
    var t3 := SlotText(1) + t4;
    var t2 := b + t3;
    var t1 := SlotText(0) + t2;
    FormatSlot(2, "", p);
    FormatLiteralPrefix(c, t5, p);
    FormatSlot(1, t4, p);
    FormatLiteralPrefix(b, t3, p);
    FormatSlot(0, t2, p);
    FormatLiteralPrefix(a, t1, p);
  }

  lemma FixtureFormatsTemplate()
    ensures Format("aaa {0} bbb {1} ccc {2}", ["A", "B", "C"]) == "aaa A bbb B ccc C"
  {
    var t := "aaa {0} bbb {1} ccc {2}";
    var p := ["A", "B", "C"];
    var nested := "aaa " + (SlotText(0) + (" bbb " + (SlotText(1) + (" ccc " + (SlotText(2) + "")))));
    var expected := "aaa " + (p[0] + (" bbb " + (p[1] + (" ccc " + (p[2] + "")))));
    assert t == nested by {
      assert SlotText(0) == "{0}" && SlotText(1) == "{1}" && SlotText(2) == "{2}";
    }
    assert expected == "aaa A bbb B ccc C";
    FormatThreeSlots("aaa ", " bbb ", " ccc ", p);
  }

  lemma FixtureFormatsTemplateInSection()
    ensures Format("xxx {0} yyy {1} zzz {2}", ["X", "Y", "Z"]) == "xxx X yyy Y zzz Z"
  {
    var t := "xxx {0} yyy {1} zzz {2}";
    var p := ["X", "Y", "Z"];
    var nested := "xxx " + (SlotText(0) + (" yyy " + (SlotText(1) + (" zzz " + (SlotText(2) + "")))));
    var expected := "xxx " + (p[0] + (" yyy " + (p[1] + (" zzz " + (p[2] + "")))));
    assert t == nested by {
      assert SlotText(0) == "{0}" && SlotText(1) == "{1}" && SlotText(2) == "{2}";
    }
    assert expected == "xxx X yyy Y zzz Z";
    FormatThreeSlots("xxx ", " yyy ", " zzz ", p);
  }

  /** 'can translate simple string' */
  method CanTranslateSimpleString() returns (r: string)
    ensures r == "a fi"
  {
    var t := new Translator(Some("fi"), Some(TestData));
    FixtureFindsA();
    r := t.Translate("a", []);
  }

  /** 'can translate string from specified section' */
  method CanTranslateFromSection() returns (r: string)
    ensures r == "b test fi"
  {
    var t := new Translator(Some("fi"), Some(TestData));
    FixtureFindsBInSection();
    r := t.Translate("b", [Str("test")]);
  }

  /** 'can translate and replace placeholders in translated string' */
  method CanReplacePlaceholders() returns (r: string, params: seq<string>)
    ensures r == "aaa A bbb B ccc C"
    ensures params == ["aaa {0} bbb {1} ccc {2}", "A", "B", "C"]
  {
    var t := new Translator(Some("fi"), Some(TestData));
    var p := new JsArray(["A", "B", "C"]);
    FixtureFindsTemplate();
    FixtureFormatsTemplate();
    r := t.Translate(ParamsKey, [Arr(p)]);
    params := p.items;
    TemplateFirst(params, Translated(Loaded(), "fi", ParamsKey, ""), ["A", "B", "C"]);
  }

  lemma TemplateFirst(items: seq<string>, pre: string, rest: seq<string>)
    requires items == [pre] + rest
    requires pre == "aaa {0} bbb {1} ccc {2}" && rest == ["A", "B", "C"]
    ensures items == ["aaa {0} bbb {1} ccc {2}", "A", "B", "C"]
  {
  }

  /** 'can translate and replace placeholders when section is specified' */
  method CanReplacePlaceholdersInSection() returns (r: string)
    ensures r == "xxx X yyy Y zzz Z"
  {
    var t := new Translator(Some("fi"), Some(TestData));
    var p := new JsArray(["X", "Y", "Z"]);
    FixtureFindsTemplateInSection();
    FixtureFormatsTemplateInSection();
    r := t.Translate(ParamsKey, [Arr(p), Str("test")]);
  }

  /** 'translates according to specified language' */
  method TranslatesInSelectedLanguage() returns (r: string)
    ensures r == "b de"
  {
    var t := new Translator(Some("fi"), Some(TestData));
    FixtureFindsGerman();
    t.SetLanguage(Some("de"));
    r := t.Translate("b", []);
  }

  /** 'returns input string if language not defined' */
  method ReturnsKeyWithoutLanguage() returns (r: string)
    ensures r == "b"
  {
    var t := new Translator(Some("fi"), Some(TestData));
    t.SetLanguage(None);
    r := t.Translate("b", []);
  }

  /** 'returns input string if translation not found' */
  method ReturnsKeyWhenNotFound() returns (r: string)
    ensures r == "not exists"
  {
    var t := new Translator(Some("fi"), Some(TestData));
    FixtureMisses();
    r := t.Translate("not exists", []);
  }
}
