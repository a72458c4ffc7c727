/**
 * The translation index both Translator drafts keep: the default section
 * plus named sections, each mapping a composite key `lang + key` to a
 * translated value. These are the value-level definitions that the two
 * Translator classes are proved against, and the lemmas about loading a
 * batch of records and looking a key up.
 */
module TranslationIndex {
  import opened JsValues

  type Section = map<string, string>

  datatype Index = Index(defaultSection: Section, sections: map<string, Section>)

  const Empty := Index(map[], map[])

  /**
   * The side effect of `getSection(name)`: a truthy name that is not yet a
   * section gets a fresh empty one; "" (falsy) leaves the index alone.
   */
  function Ensure(idx: Index, name: string): (r: Index)
    ensures r.defaultSection == idx.defaultSection
    ensures name != "" ==> r.sections.Keys == idx.sections.Keys + {name}
    ensures name == "" ==> r == idx
    ensures name in idx.sections ==> r == idx
    ensures forall s :: s in idx.sections ==> s in r.sections && r.sections[s] == idx.sections[s]
    ensures name != "" && name !in idx.sections ==> r.sections[name] == map[]
  {
    if name != "" && name !in idx.sections then idx.(sections := idx.sections[name := map[]])
    else idx
  }

  /** The section `getSection(name)` hands back (an absent one reads as empty). */
  function SectionOf(idx: Index, name: string): Section
  {
    if name == "" then idx.defaultSection
    else if name in idx.sections then idx.sections[name]
    else map[]
  }

  /** The stored value under `k` in section `name`, if there is one. */
  function Lookup(idx: Index, name: string, k: string): Option<string>
  {
    var s := SectionOf(idx, name);
    if k in s then Some(s[k]) else None
  }

  /** `getSection(name)[k] = v`: create the section if needed, then write one entry. */
  function Store(idx: Index, name: string, k: string, v: string): (r: Index)
    ensures r.sections.Keys == Ensure(idx, name).sections.Keys
    ensures Lookup(r, name, k) == Some(v)
    ensures forall name', k' :: (name', k') != (name, k) ==> Lookup(r, name', k') == Lookup(idx, name', k')
  {
    if name == "" then idx.(defaultSection := idx.defaultSection[k := v])
    else idx.(sections := idx.sections[name := SectionOf(idx, name)[k := v]])
  }

  /** Does loading `rec` (with `current` as the batch language) write `k` in section `name`? */
  predicate Writes(rec: Record, current: Option<string>, name: string, k: string)
  {
    rec.section == name && CompositeKey(EffectiveLang(rec, current), rec.key) == k
  }

  /** The effect of one record of a batch. */
  function Apply(idx: Index, rec: Record, current: Option<string>): Index
  {
    Store(idx, rec.section, CompositeKey(EffectiveLang(rec, current), rec.key), rec.value)
  }

  /** A batch applied first record first (src/I18n draft). */
  function LoadInOrder(idx: Index, records: seq<Record>, current: Option<string>): Index
  {
    if records == [] then idx
    else Apply(LoadInOrder(idx, records[..|records| - 1], current), records[|records| - 1], current)
  }

  /** A batch applied last record first (src/i18n draft). */
  function LoadReversed(idx: Index, records: seq<Record>, current: Option<string>): Index
  {
    if records == [] then idx
    else Apply(LoadReversed(idx, records[1..], current), records[0], current)
  }

  function Reverse<T>(s: seq<T>): (r: seq<T>)
    ensures |r| == |s|
    ensures forall i :: 0 <= i < |s| ==> r[i] == s[|s| - 1 - i]
  {
    if s == [] then [] else Reverse(s[1..]) + [s[0]]
  }

  /** The pre-format result of `translate` once the section is resolved: the stored value, else the key. */
  function Translated(idx: Index, language: string, key: string, name: string): string
  {
    match Lookup(idx, name, CompositeKey(language, key))
    case Some(v) => v
    case None => key
  }

  /** What one record does to a lookup: it sets the entry it writes and leaves every other alone. */
  lemma ApplyLookup(idx: Index, rec: Record, current: Option<string>, name: string, k: string)
    ensures Lookup(Apply(idx, rec, current), name, k)
         == if Writes(rec, current, name, k) then Some(rec.value) else Lookup(idx, name, k)
  {
  }

  // ---------------------------------------------------------------------------
  // getSection

  /** A second `getSection(name)` creates nothing. */
  lemma EnsureIdempotent(idx: Index, name: string)
    ensures Ensure(Ensure(idx, name), name) == Ensure(idx, name)
  {
  }

  /** Creating a section never changes what any lookup finds. */
  lemma EnsureKeepsLookups(idx: Index, name: string, name': string, k: string)
    ensures Lookup(Ensure(idx, name), name', k) == Lookup(idx, name', k)
  {
  }

  // ---------------------------------------------------------------------------
  // Loading a batch in array order

  /** The last record of a batch that writes a composite key decides its value. */
  lemma {:induction false} LoadInOrderLastWins(idx: Index, records: seq<Record>, current: Option<string>,
                                               j: nat, name: string, k: string)
    requires j < |records| && Writes(records[j], current, name, k)
    requires forall i :: j < i < |records| ==> !Writes(records[i], current, name, k)
    ensures Lookup(LoadInOrder(idx, records, current), name, k) == Some(records[j].value)
  {
    var n := |records| - 1;
    var init := records[..n];
    ApplyLookup(LoadInOrder(idx, init, current), records[n], current, name, k);
    if j < n {
      forall i | j < i < n
        ensures !Writes(init[i], current, name, k)
      {
        assert init[i] == records[i];
      }
      assert init[j] == records[j];
      LoadInOrderLastWins(idx, init, current, j, name, k);
    }
  }

  /** An entry no record of the batch writes keeps its value (or stays absent). */
  lemma {:induction false} LoadInOrderUntouched(idx: Index, records: seq<Record>, current: Option<string>,
                                                name: string, k: string)
    requires forall i :: 0 <= i < |records| ==> !Writes(records[i], current, name, k)
    ensures Lookup(LoadInOrder(idx, records, current), name, k) == Lookup(idx, name, k)
  {
    if records != [] {
      var n := |records| - 1;
      ApplyLookup(LoadInOrder(idx, records[..n], current), records[n], current, name, k);
      LoadInOrderUntouched(idx, records[..n], current, name, k);
    }
  }

  /** The truthy section names a batch mentions. */
  function MentionedSections(records: seq<Record>): set<string>
  {
    if records == [] then {}
    else
      var last := records[|records| - 1];
      MentionedSections(records[..|records| - 1]) + (if last.section != "" then {last.section} else {})
  }

  lemma {:induction false} MentionedSectionsMembers(records: seq<Record>, s: string)
    ensures s in MentionedSections(records)
        <==> s != "" && exists i :: 0 <= i < |records| && records[i].section == s
  {
    if records != [] {
      var n := |records| - 1;
      MentionedSectionsMembers(records[..n], s);
      if s != "" && (exists i :: 0 <= i < |records| && records[i].section == s) {
        var i :| 0 <= i < |records| && records[i].section == s;
        if i < n {
          assert records[..n][i] == records[i];
        }
      }
    }
  }

  /** Loading creates exactly the named sections its records mention; none is removed. */
  lemma {:induction false} LoadInOrderSections(idx: Index, records: seq<Record>, current: Option<string>)
    ensures LoadInOrder(idx, records, current).sections.Keys == idx.sections.Keys + MentionedSections(records)
  {
    if records != [] {
      LoadInOrderSections(idx, records[..|records| - 1], current);
    }
  }

  /** Two successive batches with the same batch language act as one concatenated batch. */
  lemma {:induction false} LoadInOrderCumulative(idx: Index, first: seq<Record>, second: seq<Record>,
                                                 current: Option<string>)
    ensures LoadInOrder(LoadInOrder(idx, first, current), second, current)
         == LoadInOrder(idx, first + second, current)
  {
    if second != [] {
      var n := |second| - 1;
      LoadInOrderCumulative(idx, first, second[..n], current);
      assert (first + second)[..|first + second| - 1] == first + second[..n];
    } else {
      assert first + second == first;
    }
  }

  // ---------------------------------------------------------------------------
  // Loading a batch in reverse order

  /** Processing last to first is processing the reversed batch in order. */
  lemma {:induction false} LoadReversedIsReverse(idx: Index, records: seq<Record>, current: Option<string>)
    ensures LoadReversed(idx, records, current) == LoadInOrder(idx, Reverse(records), current)
  {
    if records != [] {
      LoadReversedIsReverse(idx, records[1..], current);
      var r := Reverse(records);
      assert r[..|r| - 1] == Reverse(records[1..]);
    }
  }

  /** Within one reversed batch the FIRST record writing a composite key decides its value. */
  lemma {:induction false} LoadReversedFirstWins(idx: Index, records: seq<Record>, current: Option<string>,
                                                 j: nat, name: string, k: string)
    requires j < |records| && Writes(records[j], current, name, k)
    requires forall i :: 0 <= i < j ==> !Writes(records[i], current, name, k)
    ensures Lookup(LoadReversed(idx, records, current), name, k) == Some(records[j].value)
  {
    ApplyLookup(LoadReversed(idx, records[1..], current), records[0], current, name, k);
    if j > 0 {
      LoadReversedFirstWins(idx, records[1..], current, j - 1, name, k);
    }
  }

  /** An entry no record of the reversed batch writes keeps its value (or stays absent). */
  lemma {:induction false} LoadReversedUntouched(idx: Index, records: seq<Record>, current: Option<string>,
                                                 name: string, k: string)
    requires forall i :: 0 <= i < |records| ==> !Writes(records[i], current, name, k)
    ensures Lookup(LoadReversed(idx, records, current), name, k) == Lookup(idx, name, k)
  {
    if records != [] {
      ApplyLookup(LoadReversed(idx, records[1..], current), records[0], current, name, k);
      LoadReversedUntouched(idx, records[1..], current, name, k);
    }
  }

  /**
   * Sections are never cleared between calls: two reversed batches with the
   * same batch language act as one batch holding the second call's records
   * ahead of the first call's.
   */
  lemma {:induction false} LoadReversedCumulative(idx: Index, first: seq<Record>, second: seq<Record>,
                                                  current: Option<string>)
    ensures LoadReversed(LoadReversed(idx, first, current), second, current)
         == LoadReversed(idx, second + first, current)
  {
    if second == [] {
      assert second + first == first;
    } else {
      var both := second + first;
      assert both[0] == second[0];
      assert both[1..] == second[1..] + first;
      LoadReversedCumulative(idx, first, second[1..], current);
    }
  }

  /** A reversed load creates the same sections as an in-order one: those the batch mentions. */
  lemma LoadReversedSections(idx: Index, records: seq<Record>, current: Option<string>)
    ensures LoadReversed(idx, records, current).sections.Keys == idx.sections.Keys + MentionedSections(Reverse(records))
  {
    LoadReversedIsReverse(idx, records, current);
    LoadInOrderSections(idx, Reverse(records), current);
  }

  /** Across two reversed batches the later call wins on a key both write. */
  lemma LoadReversedLaterCallWins(idx: Index, first: seq<Record>, second: seq<Record>,
                                  lang1: Option<string>, lang2: Option<string>,
                                  j: nat, name: string, k: string)
    requires j < |second| && Writes(second[j], lang2, name, k)
    requires forall i :: 0 <= i < j ==> !Writes(second[i], lang2, name, k)
    ensures Lookup(LoadReversed(LoadReversed(idx, first, lang1), second, lang2), name, k) == Some(second[j].value)
  {
    LoadReversedFirstWins(LoadReversed(idx, first, lang1), second, lang2, j, name, k);
  }

  // ---------------------------------------------------------------------------
  // Translating against a loaded index

  /**
   * With language L active, a key loaded under L (explicitly or as the batch
   * language) in section S translates to the value of the last record that
   * wrote `L + key` there.
   */
  lemma TranslatedAfterLoad(idx: Index, records: seq<Record>, current: Option<string>,
                            j: nat, language: string, key: string, name: string)
    requires j < |records| && records[j].section == name && records[j].key == key
    requires EffectiveLang(records[j], current) == language
    requires forall i :: j < i < |records| ==> !Writes(records[i], current, name, CompositeKey(language, key))
    ensures Translated(LoadInOrder(idx, records, current), language, key, name) == records[j].value
  {
    LoadInOrderLastWins(idx, records, current, j, name, CompositeKey(language, key));
  }

  /** A key whose composite was never stored in the section falls back to itself. */
  lemma TranslatedFallsBack(idx: Index, records: seq<Record>, current: Option<string>,
                            language: string, key: string, name: string)
    requires Lookup(idx, name, CompositeKey(language, key)) == None
    requires forall i :: 0 <= i < |records| ==> !Writes(records[i], current, name, CompositeKey(language, key))
    ensures Translated(LoadInOrder(idx, records, current), language, key, name) == key
  {
    LoadInOrderUntouched(idx, records, current, name, CompositeKey(language, key));
  }

  /**
   * A record without its own `lang`, loaded while the language is null, is
   * stored under "null" + key: it is found only once the language is the
   * string "null".
   */
  lemma NullLanguageStoresUnderNull(idx: Index, key: string, value: string, name: string)
    ensures Translated(LoadInOrder(idx, [Record(key, value, "", name)], None), "null", key, name) == value
  {
    LoadInOrderLastWins(idx, [Record(key, value, "", name)], None, 0, name, CompositeKey("null", key));
  }

  /** A record's own truthy `lang` wins over the batch language, whatever that is. */
  lemma OwnLangOverridesBatch(idx: Index, key: string, value: string, lang: string, name: string,
                              current: Option<string>)
    requires lang != ""
    ensures Translated(LoadInOrder(idx, [Record(key, value, lang, name)], current), lang, key, name) == value
  {
    LoadInOrderLastWins(idx, [Record(key, value, lang, name)], current, 0, name, CompositeKey(lang, key));
  }

  /** A record without its own `lang` is stored under the language captured for the batch. */
  lemma BatchLangFillsIn(idx: Index, key: string, value: string, name: string, current: string)
    ensures Translated(LoadInOrder(idx, [Record(key, value, "", name)], Some(current)), current, key, name) == value
  {
    LoadInOrderLastWins(idx, [Record(key, value, "", name)], Some(current), 0, name, CompositeKey(current, key));
  }

  /**
   * The composite-key hazard: a record for language "a" and key "bc" is what
   * a lookup of key "c" finds when the language is "ab".
   */
  lemma CollidingLookup(idx: Index, value: string)
    ensures Translated(LoadInOrder(idx, [Record("bc", value, "a", "")], None), "ab", "c", "") == value
  {
    var records := [Record("bc", value, "a", "")];
    CompositeKeyCollision();
    LoadInOrderLastWins(idx, records, None, 0, "", CompositeKey("ab", "c"));
  }
}
