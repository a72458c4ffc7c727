/**
 * `Ext.i18n.Translator` (src/i18n/Translator.js): the draft that loads a
 * batch through `addTranslations`, walking the records from last to first
 * and adding each to an `Ext.util.HashMap` section (insert or replace).
 * Its `translate` starts from a null section, so two call shapes reach the
 * `containsKey` lookup without a section and throw a TypeError.
 *
 * As in the other draft, `sections` and `defaultSection` sit on the class
 * prototype in the source and are shared by every instance; this model is
 * a single instance that owns its index.
 */
module ExtI18nTranslator {
  import opened JsValues
  import opened TranslationIndex
  import opened StringFormat

  /** Params and a section name ("" = default), or no section at all (null). */
  datatype Resolution = Resolution(params: Option<JsArray>, section: Option<string>)

  /** What `translate` hands back: a string, or the TypeError thrown by `null.containsKey`. */
  datatype Outcome = Returned(text: string) | TypeError

  /**
   * The argument switch of this draft: one extra argument is params when it
   * is an array (and then no section is chosen) and a section name
   * otherwise; with two, an array first gives params and only a string
   * second chooses a section; any other count uses the default section.
   */
  function Resolve(args: seq<Arg>): (r: Resolution)
    ensures |args| != 1 && |args| != 2 ==> r == Resolution(None, Some(""))
    ensures |args| == 1 && args[0].Arr? ==> r == Resolution(Some(args[0].list), None)
    ensures |args| == 1 && args[0].Str? ==> r == Resolution(None, Some(args[0].text))
    ensures |args| == 1 && args[0].Nil? ==> r == Resolution(None, Some(""))
    ensures |args| == 2 ==> r.params.Some? == args[0].Arr? && (args[0].Arr? ==> r.params.value == args[0].list)
    ensures |args| == 2 ==> r.section == (if args[1].Str? then Some(args[1].text) else None)
  {
    if |args| == 1 then
      match args[0]
      case Arr(a) => Resolution(Some(a), None)
      case Str(s) => Resolution(None, Some(s))
      case Nil => Resolution(None, Some(""))
    else if |args| == 2 then
      Resolution(if args[0].Arr? then Some(args[0].list) else None,
                 if args[1].Str? then Some(args[1].text) else None)
    else
      Resolution(None, Some(""))
  }

  /** Exactly two call shapes leave the section null. */
  lemma NullSectionCases(args: seq<Arg>)
    ensures Resolve(args).section.None?
        <==> (|args| == 1 && args[0].Arr?) || (|args| == 2 && !args[1].Str?)
  {
  }

  /** The caller's array that `translate` may `unshift` into. */
  function ParamArrays(r: Resolution): set<JsArray>
  {
    if r.params.Some? then {r.params.value} else {}
  }

  /** The section a call reads: the resolved one, or with `fallback` the default in place of null. */
  function SectionUsed(r: Resolution, fallback: bool): Option<string>
  {
    if r.section.Some? then r.section else if fallback then Some("") else None
  }

  /** The text `String(key)` gives for the `arguments` object that `_` passes as the key. */
  const ArgumentsObjectText := "[object Arguments]"

  class Translator {
    var language: Option<string>
    var defaultSection: Section
    var sections: map<string, Section>

    /** The translation index held in `defaultSection` and `sections`. */
    function Idx(): Index
      reads this
    {
      Index(defaultSection, sections)
    }

    /**
     * The whole effect of `translate(key, ...args)` producing `out`: with no
     * truthy language the key comes back and nothing changes; when no
     * section was chosen (and `fallback` does not supply the default) the
     * call throws before touching anything; otherwise the section is created
     * if needed, `language + key` is looked up with the key as fallback, and
     * params, when given, receive the result at their front and are
     * substituted into it.
     */
    twostate predicate TranslatedAs(key: string, args: seq<Arg>, out: Outcome, fallback: bool)
      reads this, ParamArrays(Resolve(args))
    {
      var res := Resolve(args);
      var used := SectionUsed(res, fallback);
      && language == old(language)
      && (!Truthy(language) ==>
            out == Returned(key) && Idx() == old(Idx()) && unchanged(ParamArrays(res)))
      && (Truthy(language) && used.None? ==>
            out == TypeError && Idx() == old(Idx()) && unchanged(ParamArrays(res)))
      && (Truthy(language) && used.Some? ==>
            var pre := Translated(old(Idx()), language.value, key, used.value);
            && Idx() == Ensure(old(Idx()), used.value)
            && (res.params.None? ==> out == Returned(pre))
            && (res.params.Some? ==>
                  var p := res.params.value;
                  && out == Returned(Format(pre, old(p.items)))
                  && p.items == [pre] + old(p.items)))
    }

    /**
     * `new Ext.i18n.Translator({language, data})`: the language is set when
     * it is truthy, then `data` goes through `addTranslations`.
     */
    constructor (initialLanguage: Option<string>, data: Option<seq<Record>>)
      ensures language == (if Truthy(initialLanguage) then initialLanguage else None)
      ensures Idx() == (if data.Some? then LoadReversed(Empty, data.value, language) else Empty)
    {
      language := None;
      defaultSection := map[];
      sections := map[];
      new;
      if Truthy(initialLanguage) {
        SetLanguage(initialLanguage);
      }
      var _ := AddTranslations(data);
    }

    /**
     * `addTranslations(data)`: `false` and no change for a non-array (None);
     * otherwise the records are added from the last to the first, each at
     * `(rec.lang || currLang) + rec.key` in its section, and `true` is
     * returned. `currLang` is read once, before the loop.
     */
    method AddTranslations(data: Option<seq<Record>>) returns (ok: bool)
      modifies this
      ensures language == old(language)
      ensures ok == data.Some?
      ensures data.None? ==> Idx() == old(Idx())
      ensures data.Some? ==> Idx() == LoadReversed(old(Idx()), data.value, language)
    {
      if data.None? {
        return false;
      }
      var records := data.value;
      var currLang := language;
      var i := |records|;
      while i > 0
        invariant 0 <= i <= |records|
        invariant language == currLang == old(language)
        invariant Idx() == LoadReversed(old(Idx()), records[i..], currLang)
      {
        i := i - 1;
        AddRecord(records[i], currLang);
        assert records[i..][1..] == records[i + 1..];
      }
      return true;
    }

    /** One turn of the loop: `getSection(rec.section).add(lang + rec.key, rec.value)`. */
    method AddRecord(rec: Record, currLang: Option<string>)
      modifies this
      ensures language == old(language)
      ensures Idx() == Apply(old(Idx()), rec, currLang)
    {
      var lang := if rec.lang != "" then rec.lang else LangText(currLang);
      var section := GetSection(rec.section);
      section := section[lang + rec.key := rec.value];
      if rec.section == "" {
        defaultSection := section;
      } else {
        sections := sections[rec.section := section];
      }
    }

    /** `translate(key, ...args)` as written, null-section TypeError included. */
    method Translate(key: string, args: seq<Arg>) returns (out: Outcome)
      modifies this, ParamArrays(Resolve(args))
      ensures TranslatedAs(key, args, out, false)
    {
      out := TranslateWith(key, args, false);
    }

    /**
     * `translate` with its section starting from the default section instead
     * of null, as in the other draft: every call returns a string.
     */
    method TranslateFixed(key: string, args: seq<Arg>) returns (out: Outcome)
      modifies this, ParamArrays(Resolve(args))
      ensures out.Returned?
      ensures TranslatedAs(key, args, out, true)
    {
      out := TranslateWith(key, args, true);
    }

    /** The body of `translate`; `fallback` chooses the initial section: null, or the default one. */
    method TranslateWith(key: string, args: seq<Arg>, fallback: bool) returns (out: Outcome)
      modifies this, ParamArrays(Resolve(args))
      ensures TranslatedAs(key, args, out, fallback)
    {
      if !Truthy(language) {
        return Returned(key);
      }
      var result := key;
      var params: Option<JsArray> := None;
      var section: Option<Section> := if fallback then Some(defaultSection) else None;
      if |args| == 1 {
        if args[0].Arr? {
          params := Some(args[0].list);
        } else {
          var s := GetSection(if args[0].Str? then args[0].text else "");
          section := Some(s);
        }
      } else if |args| == 2 {
        if args[0].Arr? {
          params := Some(args[0].list);
        }
        if args[1].Str? {
          var s := GetSection(args[1].text);
          section := Some(s);
        }
      } else {
        section := Some(defaultSection);
      }
      if section.None? {
        return TypeError;
      }
      var k := language.value + key;
      if k in section.value {
        result := section.value[k];
      }
      if params.Some? {
        var p := params.value;
        p.items := [result] + p.items;
        result := Format(p.items[0], p.items[1..]);
      }
      out := Returned(result);
    }

    /**
     * The alias `_` as written: it hands `translate` the `arguments` object
     * itself as the only argument and returns nothing.
     */
    method UnderscoreAsWritten(key: string, args: seq<Arg>) returns (r: Option<string>)
      modifies this
      ensures r == None
      ensures language == old(language) && Idx() == old(Idx())
    {
      var _ := Translate(ArgumentsObjectText, []);
      r := None;
    }

    /**
     * The alias `_` as its doc comment describes it: `translate` under
     * another name (the corrected `translate`, so it never throws).
     */
    method Underscore(key: string, args: seq<Arg>) returns (out: Outcome)
      modifies this, ParamArrays(Resolve(args))
      ensures out.Returned?
      ensures TranslatedAs(key, args, out, true)
    {
      out := TranslateFixed(key, args);
    }

    /**
     * `getSection(name)`: a truthy name gives that section, created empty on
     * a miss; a falsy one gives the default section.
     */
    method GetSection(name: string) returns (section: Section)
      modifies this
      ensures language == old(language)
      ensures Idx() == Ensure(old(Idx()), name)
      ensures section == SectionOf(old(Idx()), name)
    {
      if name != "" {
        if name !in sections {
          sections := sections[name := map[]];
        }
        section := sections[name];
      } else {
        section := defaultSection;
      }
    }

    method SetLanguage(lang: Option<string>)
      modifies this
      ensures language == lang && Idx() == old(Idx())
    {
      language := lang;
    }

    method GetLanguage() returns (lang: Option<string>)
      ensures lang == language
    {
      lang := language;
    }
  }
}
