/**
 * `I18n.Translator` (src/I18n/Translator.js): the draft whose translations
 * are loaded through an Ext store's `load` handler, record by record in
 * array order, into plain objects (`sections`, `defaultSection`).
 *
 * In the source, `sections` and `defaultSection` are declared on the class
 * prototype, so every instance shares one index; this model is a single
 * instance that owns its index.
 */
module I18nTranslator {
  import opened JsValues
  import opened TranslationIndex
  import opened StringFormat

  /** What `translate` makes of its optional arguments: params and a section name ("" = default). */
  datatype Resolution = Resolution(params: Option<JsArray>, section: string)

  /**
   * The argument switch of `translate`: one extra argument is params when it
   * is an array and a section name otherwise; with two, an array first gives
   * params and a string second names the section; any other count uses the
   * default section without params.
   */
  function Resolve(args: seq<Arg>): (r: Resolution)
    ensures |args| != 1 && |args| != 2 ==> r == Resolution(None, "")
    ensures |args| == 1 ==> r.params.Some? == args[0].Arr?
    ensures |args| == 1 && args[0].Arr? ==> r == Resolution(Some(args[0].list), "")
    ensures |args| == 1 && args[0].Str? ==> r == Resolution(None, args[0].text)
    ensures |args| == 1 && args[0].Nil? ==> r == Resolution(None, "")
    ensures |args| == 2 ==> r.params.Some? == args[0].Arr? && (args[0].Arr? ==> r.params.value == args[0].list)
    ensures |args| == 2 ==> r.section == (if args[1].Str? then args[1].text else "")
  {
    if |args| == 1 then
      match args[0]
      case Arr(a) => Resolution(Some(a), "")
      case Str(s) => Resolution(None, s)
      case Nil => Resolution(None, "")
    else if |args| == 2 then
      Resolution(if args[0].Arr? then Some(args[0].list) else None,
                 if args[1].Str? then args[1].text else "")
    else
      Resolution(None, "")
  }

  /** The caller's array that `translate` may `unshift` into. */
  function ParamArrays(r: Resolution): set<JsArray>
  {
    if r.params.Some? then {r.params.value} else {}
  }

  /** The text `String(key)` gives for the `arguments` object that `_` passes as the key. */
  const ArgumentsObjectText := "[object Arguments]"

  class Translator {
    var language: Option<string>
    var defaultSection: Section
    var sections: map<string, Section>

    /** The translation index held in `defaultSection` and `sections`. */
    function Idx(): Index
      reads this
    {
      Index(defaultSection, sections)
    }

    /**
     * The whole effect of `translate(key, ...args)` returning `result`: with
     * no truthy language the key comes back and nothing changes; otherwise
     * the resolved section is created if needed, the lookup of
     * `language + key` falls back to the key, and when params were given
     * the result has been prepended to the caller's array and substituted
     * into the looked-up text.
     */
    twostate predicate TranslatedAs(key: string, args: seq<Arg>, result: string)
      reads this, ParamArrays(Resolve(args))
    {
      var res := Resolve(args);
      && language == old(language)
      && (!Truthy(language) ==>
            result == key && Idx() == old(Idx()) && unchanged(ParamArrays(res)))
      && (Truthy(language) ==>
            var pre := Translated(old(Idx()), language.value, key, res.section);
            && Idx() == Ensure(old(Idx()), res.section)
            && (res.params.None? ==> result == pre)
            && (res.params.Some? ==>
                  var p := res.params.value;
                  && result == Format(pre, old(p.items))
                  && p.items == [pre] + old(p.items)))
    }

    /**
     * `new I18n.Translator({language, data})`: the language is set when it is
     * truthy, then `data` is loaded under it when it is an array.
     */
    constructor (initialLanguage: Option<string>, data: Option<seq<Record>>)
      ensures language == (if Truthy(initialLanguage) then initialLanguage else None)
      ensures Idx() == (if data.Some? then LoadInOrder(Empty, data.value, language) else Empty)
    {
      language := None;
      defaultSection := map[];
      sections := map[];
      new;
      if Truthy(initialLanguage) {
        SetLanguage(initialLanguage);
      }
      var _ := LoadTranslations(data);
    }

    /**
     * The store's `load` handler: every record of the batch, in array order,
     * is written at `(rec.lang || language) + rec.key` in its section, the
     * language being read once before the loop.
     */
    method OnStoreLoad(records: seq<Record>)
      modifies this
      ensures language == old(language)
      ensures Idx() == LoadInOrder(old(Idx()), records, language)
    {
      var current := GetLanguage();
      var i := 0;
      while i < |records|
        invariant 0 <= i <= |records|
        invariant language == current == old(language)
        invariant Idx() == LoadInOrder(old(Idx()), records[..i], current)
      {
        StoreRecord(records[i], current);
        assert records[..i + 1][..i] == records[..i];
        i := i + 1;
      }
      assert records[..i] == records;
    }

    /** The handler's callback for one record: `getSection(rec.section)[lang + rec.key] = rec.value`. */
    method StoreRecord(rec: Record, current: Option<string>)
      modifies this
      ensures language == old(language)
      ensures Idx() == Apply(old(Idx()), rec, current)
    {
      var lang := if rec.lang != "" then rec.lang else LangText(current);
      var section := GetSection(rec.section);
      section := section[lang + rec.key := rec.value];
      if rec.section == "" {
        defaultSection := section;
      } else {
        sections := sections[rec.section := section];
      }
    }

    /**
     * `loadTranslations(data)`: `false` and no change for a non-array (None);
     * otherwise the store is loaded, its handler runs, and nothing is returned.
     */
    method LoadTranslations(data: Option<seq<Record>>) returns (r: Option<bool>)
      modifies this
      ensures language == old(language)
      ensures data.None? ==> r == Some(false) && Idx() == old(Idx())
      ensures data.Some? ==> r == None && Idx() == LoadInOrder(old(Idx()), data.value, language)
    {
      if data.None? {
        return Some(false);
      }
      OnStoreLoad(data.value);
      r := None;
    }

    /** `translate(key, ...args)`. */
    method Translate(key: string, args: seq<Arg>) returns (result: string)
      modifies this, ParamArrays(Resolve(args))
      ensures TranslatedAs(key, args, result)
    {
      if !Truthy(language) {
        return key;
      }
      result := key;
      var params: Option<JsArray> := None;
      var section := defaultSection;
      if |args| == 1 {
        if args[0].Arr? {
          params := Some(args[0].list);
        } else {
          section := GetSection(if args[0].Str? then args[0].text else "");
        }
      } else if |args| == 2 {
        if args[0].Arr? {
          params := Some(args[0].list);
        }
        if args[1].Str? {
          section := GetSection(args[1].text);
        }
      }
      var k := language.value + key;
      if k in section {
        result := section[k];
      }
      if params.Some? {
        var p := params.value;
        p.items := [result] + p.items;
        result := Format(p.items[0], p.items[1..]);
      }
    }

    /**
     * The alias `_` as written: it hands `translate` the `arguments` object
     * itself as the only argument and returns nothing.
     */
    method UnderscoreAsWritten(key: string, args: seq<Arg>) returns (r: Option<string>)
      modifies this
      ensures r == None
      ensures language == old(language) && Idx() == old(Idx())
    {
      var _ := Translate(ArgumentsObjectText, []);
      r := None;
    }

    /** The alias `_` as its doc comment describes it: `translate` under another name. */
    method Underscore(key: string, args: seq<Arg>) returns (result: string)
      modifies this, ParamArrays(Resolve(args))
      ensures TranslatedAs(key, args, result)
    {
      result := Translate(key, args);
    }

    /**
     * `getSection(name)`: a truthy name gives that section, created empty on
     * a miss; a falsy one gives the default section.
     */
    method GetSection(name: string) returns (section: Section)
      modifies this
      ensures language == old(language)
      ensures Idx() == Ensure(old(Idx()), name)
      ensures section == SectionOf(old(Idx()), name)
    {
      if name != "" {
        if name !in sections {
          sections := sections[name := map[]];
        }
        section := sections[name];
      } else {
        section := defaultSection;
      }
    }

    method SetLanguage(lang: Option<string>)
      modifies this
      ensures language == lang && Idx() == old(Idx())
    {
      language := lang;
    }

    method GetLanguage() returns (lang: Option<string>)
      ensures lang == language
    {
      lang := language;
    }
  }
}
