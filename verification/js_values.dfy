/**
 * The JavaScript values that the two Translator drafts receive and store:
 * translation records read through an Ext data store, the loosely typed
 * arguments of `translate`, the caller's params array, and the language
 * field with JavaScript's `null`, truthiness and string concatenation.
 */
module JsValues {

  datatype Option<T> = None | Some(value: T)

  /**
   * One translation record `{key, value, lang?, section?}` as the Ext store
   * hands it back: a field missing from the raw object reads as "", and ""
   * is falsy, so "" stands for "absent" in `lang` and `section`.
   */
  datatype Record = Record(key: string, value: string, lang: string, section: string)

  /** A JavaScript array owned by the caller; `unshift` changes it in place. */
  class JsArray {
    var items: seq<string>

    constructor (items: seq<string>)
      ensures this.items == items
    {
      this.items := items;
    }
  }

  /**
   * An optional argument of `translate` after the key, classified the way
   * the drafts look at it: `Ext.isArray`, `Ext.isString`, or neither
   * (`null`, `undefined` and the other falsy values).
   */
  datatype Arg = Arr(list: JsArray) | Str(text: string) | Nil

  /** JavaScript truthiness of the `language` field: neither null nor "". */
  predicate Truthy(language: Option<string>)
  {
    language.Some? && language.value != ""
  }

  /** The string JavaScript's `+` makes of the `language` field: null gives "null". */
  function LangText(language: Option<string>): string
  {
    match language
    case None => "null"
    case Some(l) => l
  }

  /**
   * The language a record is stored under: `rec.lang || current`, where
   * `current` is the language captured when the batch started.
   */
  function EffectiveLang(rec: Record, current: Option<string>): string
  {
    if rec.lang != "" then rec.lang else LangText(current)
  }

  /** The composite index key `lang + key`: plain concatenation, no separator. */
  function CompositeKey(lang: string, key: string): string
  {
    lang + key
  }

  /** Two different (language, key) pairs can share one composite key. */
  lemma CompositeKeyCollision()
    ensures ("a", "bc") != ("ab", "c")
    ensures CompositeKey("a", "bc") == CompositeKey("ab", "c")
  {
  }

  /**
   * When the two languages have the same length (two-letter codes, say), the
   * composite key determines the pair: no collision is possible.
   */
  lemma CompositeKeyInjective(l1: string, k1: string, l2: string, k2: string)
    requires |l1| == |l2|
    ensures CompositeKey(l1, k1) == CompositeKey(l2, k2) <==> l1 == l2 && k1 == k2
  {
    if CompositeKey(l1, k1) == CompositeKey(l2, k2) {
      var c := CompositeKey(l1, k1);
      assert c[..|l1|] == l1 && c[|l1|..] == k1;
      assert c[..|l2|] == l2 && c[|l2|..] == k2;
    }
  }
}
