/**
 * Merging several context sets into the speech engine's single `Context`
 * object, checking one set against the engine's limits, and estimating the
 * token count of a merge (src/lib/context/merge.ts).
 *
 * The merge builds a `Set` of terms and two insertion-ordered `Map`s by
 * walking the sets in order. JavaScript's `Map` is modelled as a list of
 * key/value pairs with distinct keys; `set` on a present key replaces the
 * value in place, on an absent key appends.
 */
module ContextMerge {
  import opened Common
  import opened Types

  // ---------------------------------------------------------------------
  // Sort keys and projections
  // ---------------------------------------------------------------------

  function TermOrder(t: ContextSetTerm): int { t.sort_order }
  function TranslationOrder(t: ContextSetTranslationTerm): int { t.sort_order }
  function TermText(t: ContextSetTerm): string { t.term }
  function GeneralPair(g: ContextSetGeneral): KeyValue { KeyValue(g.key, g.value) }
  function TranslationPair(t: ContextSetTranslationTerm): KeyValue { KeyValue(t.source, t.target) }
  function ToSourceTarget(kv: KeyValue): SourceTarget { SourceTarget(kv.key, kv.value) }

  function SortTerms(cs: ContextSetWithDetails): ContextSetWithDetails {
    cs.(terms := SortBy(cs.terms, TermOrder))
  }

  function SortTranslations(cs: ContextSetWithDetails): ContextSetWithDetails {
    cs.(translation_terms := SortBy(cs.translation_terms, TranslationOrder))
  }

  /** What `mergeContextSets` leaves behind in its input: every set's term and
      translation-term lists sorted by `sort_order`. */
  function SortedInPlace(sets: seq<ContextSetWithDetails>): seq<ContextSetWithDetails> {
    MapSeq(MapSeq(sets, SortTerms), SortTranslations)
  }

  /** Each set keeps its other fields; its two lists come out ordered by
      `sort_order`, with the same entries, and entries that share a
      `sort_order` keep their relative order. */
  lemma {:induction false} SortedInPlaceSpec(sets: seq<ContextSetWithDetails>, i: nat, k: int)
    requires i < |sets|
    ensures |SortedInPlace(sets)| == |sets|
    ensures var r := SortedInPlace(sets)[i];
      && r.general == sets[i].general && r.text == sets[i].text && r.name == sets[i].name && r.id == sets[i].id
      && SortedBy(r.terms, TermOrder) && multiset(r.terms) == multiset(sets[i].terms)
      && SortedBy(r.translation_terms, TranslationOrder)
      && multiset(r.translation_terms) == multiset(sets[i].translation_terms)
      && WithKey(r.terms, TermOrder, k) == WithKey(sets[i].terms, TermOrder, k)
      && WithKey(r.translation_terms, TranslationOrder, k) == WithKey(sets[i].translation_terms, TranslationOrder, k)
  {
    SortBySortedPermutation(sets[i].terms, TermOrder);
    SortBySortedPermutation(sets[i].translation_terms, TranslationOrder);
    SortByStable(sets[i].terms, TermOrder, k);
    SortByStable(sets[i].translation_terms, TranslationOrder, k);
  }

  // ---------------------------------------------------------------------
  // The merged fields, as reference definitions
  // ---------------------------------------------------------------------

  /** Every term of every set, each set visited in `sort_order`. */
  function AllTerms(sets: seq<ContextSetWithDetails>): seq<string> {
    if sets == [] then []
    else AllTerms(sets[..|sets| - 1]) + MapSeq(SortBy(sets[|sets| - 1].terms, TermOrder), TermText)
  }

  /** Every general entry of every set, in input order. */
  function AllGeneral(sets: seq<ContextSetWithDetails>): seq<KeyValue> {
    if sets == [] then []
    else AllGeneral(sets[..|sets| - 1]) + MapSeq(sets[|sets| - 1].general, GeneralPair)
  }

  /** Every translation term of every set as a source/target pair, each set
      visited in `sort_order`. */
  function AllTranslations(sets: seq<ContextSetWithDetails>): seq<KeyValue> {
    if sets == [] then []
    else AllTranslations(sets[..|sets| - 1]) +
         MapSeq(SortBy(sets[|sets| - 1].translation_terms, TranslationOrder), TranslationPair)
  }

  /** One more set extends each collected list by that set's entries. */
  lemma {:induction false} CollectedStep(sets: seq<ContextSetWithDetails>, i: nat)
    requires i < |sets|
    ensures AllTerms(sets[..i + 1]) == AllTerms(sets[..i]) + MapSeq(SortBy(sets[i].terms, TermOrder), TermText)
    ensures AllGeneral(sets[..i + 1]) == AllGeneral(sets[..i]) + MapSeq(sets[i].general, GeneralPair)
    ensures AllTranslations(sets[..i + 1]) ==
      AllTranslations(sets[..i]) + MapSeq(SortBy(sets[i].translation_terms, TranslationOrder), TranslationPair)
  {
    assert sets[..i + 1][..i] == sets[..i];
  }

  function Keys(entries: seq<KeyValue>): seq<string> {
    seq(|entries|, i requires 0 <= i < |entries| => entries[i].key)
  }

  /** The position of the last entry with key `k`. */
  function LastIndex(entries: seq<KeyValue>, k: string): (j: nat)
    requires k in Keys(entries)
    ensures j < |entries| && entries[j].key == k
    ensures forall m :: j < m < |entries| ==> entries[m].key != k
  {
    var n := |entries| - 1;
    if entries[n].key == k then n
    else
      assert Keys(entries) == Keys(entries[..n]) + [entries[n].key];
      LastIndex(entries[..n], k)
  }

  /** The last-wins map of a list of entries: one entry per distinct key, in
      order of the key's first appearance, holding the value of the key's last
      appearance. */
  function LastWins(entries: seq<KeyValue>): (r: seq<KeyValue>)
    ensures |r| == |Dedup(Keys(entries))|
  {
    var ks := Dedup(Keys(entries));
    seq(|ks|, i requires 0 <= i < |ks| => KeyValue(ks[i], entries[LastIndex(entries, ks[i])].value))
  }

  /** Text parts: the texts that are present and not blank, untrimmed. */
  function TextParts(sets: seq<ContextSetWithDetails>): seq<string> {
    if sets == [] then []
    else
      var t := sets[|sets| - 1].text;
      TextParts(sets[..|sets| - 1]) + (if t.Some? && Trim(t.value) != "" then [t.value] else [])
  }

  function MergedText(sets: seq<ContextSetWithDetails>): Option<string> {
    var parts := TextParts(sets);
    if parts == [] then None else Some(Join(parts, "\n\n"))
  }

  /** The merged context: each field present only when it has content. */
  function MergedContext(sets: seq<ContextSetWithDetails>): Context {
    if sets == [] then EmptyContext
    else
      var terms := Dedup(AllTerms(sets));
      var general := LastWins(AllGeneral(sets));
      var translations := MapSeq(LastWins(AllTranslations(sets)), ToSourceTarget);
      Context(
        if terms != [] then Some(terms) else None,
        if general != [] then Some(general) else None,
        MergedText(sets),
        if translations != [] then Some(translations) else None)
  }

  // ---------------------------------------------------------------------
  // The JavaScript Map
  // ---------------------------------------------------------------------

  /** `map.set(k, v)` on an insertion-ordered map. */
  function Put(m: seq<KeyValue>, k: string, v: string): seq<KeyValue> {
    if m == [] then [KeyValue(k, v)]
    else if m[0].key == k then [KeyValue(k, v)] + m[1..]
    else [m[0]] + Put(m[1..], k, v)
  }

  lemma {:induction false} PutPresent(m: seq<KeyValue>, k: string, v: string, p: nat)
    requires Distinct(Keys(m)) && p < |m| && m[p].key == k
    ensures Put(m, k, v) == m[p := KeyValue(k, v)]
  {
    if p > 0 {
      assert Keys(m)[0] != Keys(m)[p];
      assert Keys(m[1..]) == Keys(m)[1..];
      PutPresent(m[1..], k, v, p - 1);
    }
  }

  lemma {:induction false} PutAbsent(m: seq<KeyValue>, k: string, v: string)
    requires k !in Keys(m)
    ensures Put(m, k, v) == m + [KeyValue(k, v)]
  {
    if m != [] {
      assert Keys(m) == [m[0].key] + Keys(m[1..]);
      PutAbsent(m[1..], k, v);
    }
  }

  /** `Map.set` builds the last-wins map one entry at a time: setting an entry
      on the map of a list gives the map of the list extended by that entry. */
  lemma {:induction false} PutLastWins(entries: seq<KeyValue>, k: string, v: string)
    ensures Put(LastWins(entries), k, v) == LastWins(entries + [KeyValue(k, v)])
  {
    KeysSnoc(entries, KeyValue(k, v));
    DedupAppendOne(Keys(entries), k);
    if k in Dedup(Keys(entries)) {
      PutLastWinsPresent(entries, k, v);
    } else {
      PutLastWinsAbsent(entries, k, v);
    }
  }

  lemma {:induction false} PutLastWinsPresent(entries: seq<KeyValue>, k: string, v: string)
    requires k in Dedup(Keys(entries))
    requires Dedup(Keys(entries + [KeyValue(k, v)])) == Dedup(Keys(entries))
    ensures Put(LastWins(entries), k, v) == LastWins(entries + [KeyValue(k, v)])
  {
    var ks := Dedup(Keys(entries));
    var m := LastWins(entries);
    var p :| 0 <= p < |ks| && ks[p] == k;
    assert Keys(m) == ks;
    PutPresent(m, k, v, p);
    forall i | 0 <= i < |ks| ensures LastWins(entries + [KeyValue(k, v)])[i] == m[p := KeyValue(k, v)][i] {
      PresentAt(entries, KeyValue(k, v), p, i);
    }
  }

  lemma {:induction false} PresentAt(entries: seq<KeyValue>, e: KeyValue, p: nat, i: nat)
    requires Dedup(Keys(entries + [e])) == Dedup(Keys(entries))
    requires p < |Dedup(Keys(entries))| && Dedup(Keys(entries))[p] == e.key
    requires i < |Dedup(Keys(entries))|
    ensures LastWins(entries + [e])[i] == LastWins(entries)[p := e][i]
  {
    LastWinsExtendAt(entries, e, i);
  }

  lemma {:induction false} PutLastWinsAbsent(entries: seq<KeyValue>, k: string, v: string)
    requires k !in Dedup(Keys(entries))
    requires Dedup(Keys(entries + [KeyValue(k, v)])) == Dedup(Keys(entries)) + [k]
    ensures Put(LastWins(entries), k, v) == LastWins(entries + [KeyValue(k, v)])
  {
    var ks := Dedup(Keys(entries));
    var m := LastWins(entries);
    assert Keys(m) == ks;
    PutAbsent(m, k, v);
    forall i | 0 <= i < |ks| + 1 ensures LastWins(entries + [KeyValue(k, v)])[i] == (m + [KeyValue(k, v)])[i] {
      AbsentAt(entries, KeyValue(k, v), i);
    }
  }

  lemma {:induction false} AbsentAt(entries: seq<KeyValue>, e: KeyValue, i: nat)
    requires e.key !in Dedup(Keys(entries))
    requires Dedup(Keys(entries + [e])) == Dedup(Keys(entries)) + [e.key]
    requires i < |Dedup(Keys(entries))| + 1
    ensures LastWins(entries + [e])[i] == (LastWins(entries) + [e])[i]
  {
    LastWinsExtendAt(entries, e, i);
    if i < |Dedup(Keys(entries))| {
      assert Dedup(Keys(entries))[i] != e.key;
    }
  }

  /** An entry of the last-wins map of an extended list: the new entry for its
      own key, the old map's entry for any other key. */
  lemma {:induction false} LastWinsExtendAt(entries: seq<KeyValue>, e: KeyValue, i: nat)
    requires i < |Dedup(Keys(entries + [e]))|
    ensures var k' := Dedup(Keys(entries + [e]))[i];
      && (k' == e.key ==> LastWins(entries + [e])[i] == e)
      && (k' != e.key ==>
            && k' in Keys(entries)
            && LastWins(entries + [e])[i] == KeyValue(k', entries[LastIndex(entries, k')].value))
  {
    var k' := Dedup(Keys(entries + [e]))[i];
    if k' == e.key {
      LastIndexNew(entries, e);
    } else {
      assert Keys(entries + [e]) == Keys(entries) + [e.key];
      LastIndexExtend(entries, e, k');
    }
  }

  lemma {:induction false} LastIndexNew(entries: seq<KeyValue>, e: KeyValue)
    ensures e.key in Keys(entries + [e])
    ensures LastIndex(entries + [e], e.key) == |entries|
  {
    assert Keys(entries + [e])[|entries|] == e.key;
  }

  lemma {:induction false} KeysSnoc(entries: seq<KeyValue>, e: KeyValue)
    ensures Keys(entries + [e]) == Keys(entries) + [e.key]
  {
  }

  lemma {:induction false} LastIndexExtend(entries: seq<KeyValue>, e: KeyValue, k: string)
    requires k in Keys(entries) && e.key != k
    ensures k in Keys(entries + [e])
    ensures LastIndex(entries + [e], k) == LastIndex(entries, k)
  {
    var j := LastIndex(entries, k);
    assert (entries + [e])[j] == entries[j];
    assert Keys(entries + [e])[j] == k;
  }

  // ---------------------------------------------------------------------
  // mergeContextSets
  // ---------------------------------------------------------------------

  /** The term loop: a `Set` filled with each set's terms, the set's term
      list being sorted first. */
  method CollectTerms(sets: seq<ContextSetWithDetails>) returns (terms: seq<string>, after: seq<ContextSetWithDetails>)
    ensures terms == Dedup(AllTerms(sets))
    ensures after == MapSeq(sets, SortTerms)
  {
    terms := [];
    after := [];
    var i := 0;
    while i < |sets|
      invariant 0 <= i <= |sets|
      invariant terms == Dedup(AllTerms(sets[..i]))
      invariant after == MapSeq(sets[..i], SortTerms)
    {
      var sorted := SortBy(sets[i].terms, TermOrder);
      ghost var before := AllTerms(sets[..i]);
      assert before + MapSeq(sorted[..0], TermText) == before;
      var j := 0;
      while j < |sorted|
        invariant 0 <= j <= |sorted|
        invariant terms == Dedup(before + MapSeq(sorted[..j], TermText))
      {
        TermsStep(before, sorted, j);
        if sorted[j].term !in terms {
          terms := terms + [sorted[j].term];
        }
        j := j + 1;
      }
      assert sorted[..j] == sorted;
      CollectedStep(sets, i);
      MapSeqPrefixStep(sets, i, SortTerms);
      after := after + [sets[i].(terms := sorted)];
      i := i + 1;
    }
    assert sets[..i] == sets;
  }

  lemma {:induction false} TermsStep(before: seq<string>, sorted: seq<ContextSetTerm>, j: nat)
    requires j < |sorted|
    ensures Dedup(before + MapSeq(sorted[..j + 1], TermText)) ==
      AddUnique(Dedup(before + MapSeq(sorted[..j], TermText)), sorted[j].term)
  {
    MapSeqPrefixStep(sorted, j, TermText);
    assert before + MapSeq(sorted[..j + 1], TermText) == (before + MapSeq(sorted[..j], TermText)) + [sorted[j].term];
    DedupAppendOne(before + MapSeq(sorted[..j], TermText), sorted[j].term);
  }

  lemma {:induction false} PairsStep<T>(before: seq<KeyValue>, s: seq<T>, j: nat, f: T -> KeyValue)
    requires j < |s|
    ensures LastWins(before + MapSeq(s[..j + 1], f)) ==
      Put(LastWins(before + MapSeq(s[..j], f)), f(s[j]).key, f(s[j]).value)
  {
    MapSeqPrefixStep(s, j, f);
    assert before + MapSeq(s[..j + 1], f) == (before + MapSeq(s[..j], f)) + [KeyValue(f(s[j]).key, f(s[j]).value)];
    PutLastWins(before + MapSeq(s[..j], f), f(s[j]).key, f(s[j]).value);
  }

  /** The general loop: a `Map` from key to value, later entries overriding. */
  method CollectGeneral(sets: seq<ContextSetWithDetails>) returns (general: seq<KeyValue>)
    ensures general == LastWins(AllGeneral(sets))
  {
    general := [];
    var i := 0;
    while i < |sets|
      invariant 0 <= i <= |sets|
      invariant general == LastWins(AllGeneral(sets[..i]))
    {
      var entries := sets[i].general;
      ghost var before := AllGeneral(sets[..i]);
      assert before + MapSeq(entries[..0], GeneralPair) == before;
      var j := 0;
      while j < |entries|
        invariant 0 <= j <= |entries|
        invariant general == LastWins(before + MapSeq(entries[..j], GeneralPair))
      {
        PairsStep(before, entries, j, GeneralPair);
        general := Put(general, entries[j].key, entries[j].value);
        j := j + 1;
      }
      assert entries[..j] == entries;
      CollectedStep(sets, i);
      i := i + 1;
    }
    assert sets[..i] == sets;
  }

  /** The translation loop: a `Map` from source to target, each set's list
      sorted first, later entries overriding. */
  method CollectTranslations(sets: seq<ContextSetWithDetails>) returns (translations: seq<KeyValue>, after: seq<ContextSetWithDetails>)
    ensures translations == LastWins(AllTranslations(sets))
    ensures after == MapSeq(sets, SortTranslations)
  {
    translations := [];
    after := [];
    var i := 0;
    while i < |sets|
      invariant 0 <= i <= |sets|
      invariant translations == LastWins(AllTranslations(sets[..i]))
      invariant after == MapSeq(sets[..i], SortTranslations)
    {
      var sorted := SortBy(sets[i].translation_terms, TranslationOrder);
      ghost var before := AllTranslations(sets[..i]);
      assert before + MapSeq(sorted[..0], TranslationPair) == before;
      var j := 0;
      while j < |sorted|
        invariant 0 <= j <= |sorted|
        invariant translations == LastWins(before + MapSeq(sorted[..j], TranslationPair))
      {
        PairsStep(before, sorted, j, TranslationPair);
        translations := Put(translations, sorted[j].source, sorted[j].target);
        j := j + 1;
      }
      assert sorted[..j] == sorted;
      CollectedStep(sets, i);
      MapSeqPrefixStep(sets, i, SortTranslations);
      after := after + [sets[i].(translation_terms := sorted)];
      i := i + 1;
    }
    assert sets[..i] == sets;
  }

  /** `mergeContextSets`: returns the merged context and the input as the
      in-place sorts leave it. */
  method MergeContextSets(sets: seq<ContextSetWithDetails>) returns (ctx: Context, after: seq<ContextSetWithDetails>)
    ensures ctx == MergedContext(sets)
    ensures sets != [] ==> after == SortedInPlace(sets)
    ensures sets == [] ==> after == sets
  {
    if |sets| == 0 {
      return EmptyContext, sets;
    }
    var terms, withTerms := CollectTerms(sets);
    var general := CollectGeneral(sets);
    var text := MergedText(sets);
    TranslationsIgnoreTerms(sets, withTerms);
    var pairs, withBoth := CollectTranslations(withTerms);
    var translations := MapSeq(pairs, ToSourceTarget);
    ctx := Context(
      if |terms| > 0 then Some(terms) else None,
      if |general| > 0 then Some(general) else None,
      text,
      if |translations| > 0 then Some(translations) else None);
    after := withBoth;
  }

  /** Sorting the terms first does not change what the translation loop
      sees. */
  lemma {:induction false} TranslationsIgnoreTerms(sets: seq<ContextSetWithDetails>, withTerms: seq<ContextSetWithDetails>)
    requires withTerms == MapSeq(sets, SortTerms)
    ensures AllTranslations(withTerms) == AllTranslations(sets)
    decreases |sets|
  {
    if sets != [] {
      var n := |sets| - 1;
      assert withTerms[..n] == MapSeq(sets[..n], SortTerms);
      TranslationsIgnoreTerms(sets[..n], withTerms[..n]);
    }
  }

  // ---------------------------------------------------------------------
  // Properties of the merge
  // ---------------------------------------------------------------------

  /** No input gives the empty object; otherwise a field is absent exactly
      when it would be empty. */
  lemma {:induction false} MergedFieldsOmittedWhenEmpty(sets: seq<ContextSetWithDetails>)
    ensures sets == [] ==> MergedContext(sets) == EmptyContext
    ensures var c := MergedContext(sets);
      && (c.terms.None? <==> sets == [] || AllTerms(sets) == [])
      && (c.general.None? <==> sets == [] || AllGeneral(sets) == [])
      && (c.text.None? <==> TextParts(sets) == [])
      && (c.translation_terms.None? <==> sets == [] || AllTranslations(sets) == [])
      && (c.terms.Some? ==> c.terms.value != [])
      && (c.general.Some? ==> c.general.value != [])
      && (c.translation_terms.Some? ==> c.translation_terms.value != [])
  {
    if sets != [] {
      DedupEmpty(AllTerms(sets));
      DedupEmpty(Keys(AllGeneral(sets)));
      DedupEmpty(Keys(AllTranslations(sets)));
    }
  }

  lemma {:induction false} DedupEmpty<T>(xs: seq<T>)
    ensures Dedup(xs) == [] <==> xs == []
  {
    if xs != [] {
      assert xs[0] in Dedup(xs);
    }
  }

  /** The merged terms are every term of every set, each exactly once. */
  lemma {:induction false} MergedTermsDistinct(sets: seq<ContextSetWithDetails>)
    requires sets != []
    ensures var ts := MergedContext(sets).terms;
      var all := AllTerms(sets);
      && (ts.Some? <==> all != [])
      && (ts.Some? ==> Distinct(ts.value))
      && (ts.Some? ==> forall i :: 0 <= i < |ts.value| ==> ts.value[i] in all)
      && (ts.Some? ==> forall i :: 0 <= i < |all| ==> all[i] in ts.value)
  {
    DedupEmpty(AllTerms(sets));
  }

  /** The merged terms come in the order in which they are first met. */
  lemma {:induction false} MergedTermsFirstSeen(sets: seq<ContextSetWithDetails>, i: nat, j: nat)
    requires sets != [] && MergedContext(sets).terms.Some?
    requires i < j < |MergedContext(sets).terms.value|
    ensures var ts := MergedContext(sets).terms.value;
      FirstIndex(AllTerms(sets), ts[i]) < FirstIndex(AllTerms(sets), ts[j])
  {
    DedupFirstSeenOrder(AllTerms(sets), i, j);
  }

  /** The last-wins map has one entry per distinct key, and every key of the
      input is among them. */
  lemma {:induction false} LastWinsKeys(entries: seq<KeyValue>)
    ensures Keys(LastWins(entries)) == Dedup(Keys(entries))
    ensures Distinct(Keys(LastWins(entries)))
    ensures forall i :: 0 <= i < |entries| ==> entries[i].key in Keys(LastWins(entries))
  {
    assert Keys(LastWins(entries)) == Dedup(Keys(entries));
    forall i | 0 <= i < |entries| ensures entries[i].key in Keys(LastWins(entries)) {
      assert Keys(entries)[i] == entries[i].key;
    }
  }

  /** Keys keep the position of their first appearance. */
  lemma {:induction false} LastWinsFirstPosition(entries: seq<KeyValue>, i: nat, j: nat)
    requires i < j < |LastWins(entries)|
    ensures var r := LastWins(entries);
      FirstIndex(Keys(entries), r[i].key) < FirstIndex(Keys(entries), r[j].key)
  {
    DedupFirstSeenOrder(Keys(entries), i, j);
  }

  /** Each entry of the last-wins map is the last input entry with its key. */
  lemma {:induction false} LastWinsLastValue(entries: seq<KeyValue>, i: nat)
    requires i < |LastWins(entries)|
    ensures var r := LastWins(entries);
      exists j :: 0 <= j < |entries| && entries[j] == r[i] &&
        (forall m :: j < m < |entries| ==> entries[m].key != r[i].key)
  {
    var ks := Dedup(Keys(entries));
    var j := LastIndex(entries, ks[i]);
    assert entries[j] == LastWins(entries)[i];
  }

  /** The merged text is the non-blank texts, untrimmed, joined by a blank
      line: merging two groups joins their texts with one blank line, and a
      group without any non-blank text contributes nothing. */
  lemma {:induction false} MergedTextConcat(a: seq<ContextSetWithDetails>, b: seq<ContextSetWithDetails>)
    ensures TextParts(a + b) == TextParts(a) + TextParts(b)
    ensures MergedText(a).Some? && MergedText(b).Some? ==>
      MergedText(a + b) == Some(MergedText(a).value + "\n\n" + MergedText(b).value)
    ensures MergedText(b).None? ==> MergedText(a + b) == MergedText(a)
    ensures MergedText(a).None? ==> MergedText(a + b) == MergedText(b)
  {
    TextPartsAppend(a, b);
    var pa, pb := TextParts(a), TextParts(b);
    if pa != [] && pb != [] {
      JoinAppend(pa, pb, "\n\n");
    } else if pa == [] {
      assert pa + pb == pb;
    } else {
      assert pa + pb == pa;
    }
  }

  lemma {:induction false} TextPartsAppend(a: seq<ContextSetWithDetails>, b: seq<ContextSetWithDetails>)
    ensures TextParts(a + b) == TextParts(a) + TextParts(b)
    decreases |b|
  {
    if b == [] {
      assert a + b == a;
    } else {
      var n := |b| - 1;
      assert (a + b)[..|a + b| - 1] == a + b[..n];
      TextPartsAppend(a, b[..n]);
    }
  }

  /** A single set's text is taken verbatim, surrounding spaces included, as
      long as it is not blank. */
  lemma {:induction false} MergedTextSingle(cs: ContextSetWithDetails)
    ensures cs.text.Some? && !IsBlank(cs.text.value) ==> MergedText([cs]) == cs.text
    ensures cs.text.None? || IsBlank(cs.text.value) ==> MergedText([cs]) == None
  {
    TextPartsSingle(cs);
    if cs.text.Some? {
      TrimEmptyIffBlank(cs.text.value);
    }
  }

  lemma {:induction false} TextPartsSingle(cs: ContextSetWithDetails)
    ensures TextParts([cs]) == (if cs.text.Some? && Trim(cs.text.value) != "" then [cs.text.value] else [])
  {
    assert [cs][..0] == [];
  }

  // ---------------------------------------------------------------------
  // validateContextSet
  // ---------------------------------------------------------------------

  datatype Violation =
    | TextTooLong(length: nat)
    | TooManyGeneral(count: nat)
    | TooManyTerms(count: nat)
    | TooManyTranslationTerms(count: nat)
    | TermTooLong(position: nat, length: nat)
    | GeneralKeyTooLong(position: nat, length: nat)
    | GeneralValueTooLong(key: string, length: nat)

  function Message(v: Violation): string {
    match v
    case TextTooLong(n) => "Text field too long (" + NatToString(n) + " chars, max 10,000)"
    case TooManyGeneral(n) => "Too many general metadata pairs (" + NatToString(n) + ", max 100)"
    case TooManyTerms(n) => "Too many terms (" + NatToString(n) + ", recommended max 500)"
    case TooManyTranslationTerms(n) => "Too many translation terms (" + NatToString(n) + ", recommended max 500)"
    case TermTooLong(k, n) => "Term #" + NatToString(k) + " too long (" + NatToString(n) + " chars, max 200)"
    case GeneralKeyTooLong(k, n) => "General key #" + NatToString(k) + " too long (" + NatToString(n) + " chars, max 100)"
    case GeneralValueTooLong(key, n) => "General value for key \"" + key + "\" too long (" + NatToString(n) + " chars, max 500)"
  }

  const MaxTextLength := 10000
  const MaxGeneralPairs := 100
  const MaxTerms := 500
  const MaxTranslationTerms := 500
  const MaxTermLength := 200
  const MaxKeyLength := 100
  const MaxValueLength := 500

  function TextLength(cs: ContextSetWithDetails): nat {
    if cs.text.Some? then |cs.text.value| else 0
  }

  function CountViolations(cs: ContextSetWithDetails): seq<Violation> {
    (if TextLength(cs) > MaxTextLength then [TextTooLong(TextLength(cs))] else []) +
    (if |cs.general| > MaxGeneralPairs then [TooManyGeneral(|cs.general|)] else []) +
    (if |cs.terms| > MaxTerms then [TooManyTerms(|cs.terms|)] else []) +
    (if |cs.translation_terms| > MaxTranslationTerms then [TooManyTranslationTerms(|cs.translation_terms|)] else [])
  }

  /** The per-term violations of a list, numbered from 1. */
  function TermViolations(terms: seq<ContextSetTerm>): seq<Violation> {
    if terms == [] then []
    else
      var t := terms[|terms| - 1];
      TermViolations(terms[..|terms| - 1]) +
      (if |t.term| > MaxTermLength then [TermTooLong(|terms|, |t.term|)] else [])
  }

  function GeneralEntryViolations(position: nat, g: ContextSetGeneral): seq<Violation> {
    (if |g.key| > MaxKeyLength then [GeneralKeyTooLong(position, |g.key|)] else []) +
    (if |g.value| > MaxValueLength then [GeneralValueTooLong(g.key, |g.value|)] else [])
  }

  function GeneralViolations(general: seq<ContextSetGeneral>): seq<Violation> {
    if general == [] then []
    else GeneralViolations(general[..|general| - 1]) + GeneralEntryViolations(|general|, general[|general| - 1])
  }

  function Violations(cs: ContextSetWithDetails): seq<Violation> {
    CountViolations(cs) + TermViolations(cs.terms) + GeneralViolations(cs.general)
  }

  lemma {:induction false} TermViolationsStep(terms: seq<ContextSetTerm>, idx: nat)
    requires idx < |terms|
    ensures TermViolations(terms[..idx + 1]) == TermViolations(terms[..idx]) +
      (if |terms[idx].term| > MaxTermLength then [TermTooLong(idx + 1, |terms[idx].term|)] else [])
  {
    assert terms[..idx + 1][..idx] == terms[..idx];
  }

  lemma {:induction false} GeneralViolationsStep(general: seq<ContextSetGeneral>, idx: nat)
    requires idx < |general|
    ensures GeneralViolations(general[..idx + 1]) ==
      GeneralViolations(general[..idx]) + GeneralEntryViolations(idx + 1, general[idx])
  {
    assert general[..idx + 1][..idx] == general[..idx];
  }

  /** The four count checks, in order. */
  method CheckCounts(cs: ContextSetWithDetails) returns (found: seq<Violation>)
    ensures found == CountViolations(cs)
  {
    found := [];
    var textLength := if cs.text.Some? then |cs.text.value| else 0;
    if textLength > 10000 {
      found := found + [TextTooLong(textLength)];
    }
    if |cs.general| > 100 {
      found := found + [TooManyGeneral(|cs.general|)];
    }
    if |cs.terms| > 500 {
      found := found + [TooManyTerms(|cs.terms|)];
    }
    if |cs.translation_terms| > 500 {
      found := found + [TooManyTranslationTerms(|cs.translation_terms|)];
    }
  }

  /** The loop over the terms. */
  method CheckTermLengths(terms: seq<ContextSetTerm>) returns (found: seq<Violation>)
    ensures found == TermViolations(terms)
  {
    found := [];
    var idx := 0;
    while idx < |terms|
      invariant 0 <= idx <= |terms|
      invariant found == TermViolations(terms[..idx])
    {
      var term := terms[idx];
      TermViolationsStep(terms, idx);
      if |term.term| > 200 {
        found := found + [TermTooLong(idx + 1, |term.term|)];
      }
      idx := idx + 1;
    }
    assert terms[..idx] == terms;
  }

  /** The loop over the general entries: key first, then value. */
  method CheckGeneralLengths(general: seq<ContextSetGeneral>) returns (found: seq<Violation>)
    ensures found == GeneralViolations(general)
  {
    found := [];
    var idx := 0;
    while idx < |general|
      invariant 0 <= idx <= |general|
      invariant found == GeneralViolations(general[..idx])
    {
      var g := general[idx];
      GeneralViolationsStep(general, idx);
      ghost var previous := found;
      if |g.key| > 100 {
        found := found + [GeneralKeyTooLong(idx + 1, |g.key|)];
      }
      if |g.value| > 500 {
        found := found + [GeneralValueTooLong(g.key, |g.value|)];
      }
      assert found == previous + GeneralEntryViolations(idx + 1, g);
      idx := idx + 1;
    }
    assert general[..idx] == general;
  }

  /** `validateContextSet`: the error messages, in the order the checks run.
      Each check records a violation, rendered as its message. */
  method ValidateContextSet(cs: ContextSetWithDetails) returns (errors: seq<string>)
    ensures errors == MapSeq(Violations(cs), Message)
  {
    var counts := CheckCounts(cs);
    var termFound := CheckTermLengths(cs.terms);
    var generalFound := CheckGeneralLengths(cs.general);
    errors := MapSeq(counts + termFound + generalFound, Message);
  }

  /** A set passes exactly when every limit holds. */
  lemma {:induction false} ValidIffWithinLimits(cs: ContextSetWithDetails)
    ensures Violations(cs) == [] <==>
      && TextLength(cs) <= MaxTextLength
      && |cs.general| <= MaxGeneralPairs
      && |cs.terms| <= MaxTerms
      && |cs.translation_terms| <= MaxTranslationTerms
      && (forall i :: 0 <= i < |cs.terms| ==> |cs.terms[i].term| <= MaxTermLength)
      && (forall i :: 0 <= i < |cs.general| ==> |cs.general[i].key| <= MaxKeyLength && |cs.general[i].value| <= MaxValueLength)
  {
    TermViolationsEmpty(cs.terms);
    GeneralViolationsEmpty(cs.general);
  }

  lemma {:induction false} TermViolationsEmpty(terms: seq<ContextSetTerm>)
    ensures TermViolations(terms) == [] <==> forall i :: 0 <= i < |terms| ==> |terms[i].term| <= MaxTermLength
  {
    if terms != [] {
      var n := |terms| - 1;
      TermViolationsEmpty(terms[..n]);
      assert forall i :: 0 <= i < n ==> terms[..n][i] == terms[i];
    }
  }

  lemma {:induction false} GeneralViolationsEmpty(general: seq<ContextSetGeneral>)
    ensures GeneralViolations(general) == [] <==>
      forall i :: 0 <= i < |general| ==> |general[i].key| <= MaxKeyLength && |general[i].value| <= MaxValueLength
  {
    if general != [] {
      var n := |general| - 1;
      GeneralViolationsEmpty(general[..n]);
      assert forall i :: 0 <= i < n ==> general[..n][i] == general[i];
    }
  }

  /** Each overlong term is reported once: the number of term messages is the
      number of terms over the limit. */
  lemma {:induction false} TermViolationsCount(terms: seq<ContextSetTerm>)
    ensures |TermViolations(terms)| == |Filter(terms, (t: ContextSetTerm) => |t.term| > MaxTermLength)|
  {
    if terms != [] {
      var n := |terms| - 1;
      TermViolationsCount(terms[..n]);
      assert terms == terms[..n] + [terms[n]];
      FilterAppend(terms[..n], [terms[n]], (t: ContextSetTerm) => |t.term| > MaxTermLength);
    }
  }

  /** Translation terms are only counted: their contents never matter. */
  lemma {:induction false} TranslationContentsUnchecked(cs: ContextSetWithDetails, other: seq<ContextSetTranslationTerm>)
    requires |other| == |cs.translation_terms|
    ensures Violations(cs.(translation_terms := other)) == Violations(cs)
  {
  }

  // ---------------------------------------------------------------------
  // estimateTokenCount
  // ---------------------------------------------------------------------

  function TermChars(terms: seq<string>): nat {
    if terms == [] then 0 else |terms[0]| + TermChars(terms[1..])
  }

  function PairChars(pairs: seq<KeyValue>): nat {
    if pairs == [] then 0 else |pairs[0].key| + |pairs[0].value| + PairChars(pairs[1..])
  }

  function TranslationChars(pairs: seq<SourceTarget>): nat {
    if pairs == [] then 0 else |pairs[0].source| + |pairs[0].target| + TranslationChars(pairs[1..])
  }

  function TotalChars(c: Context): nat {
    (if c.terms.Some? then TermChars(c.terms.value) else 0) +
    (if c.general.Some? then PairChars(c.general.value) else 0) +
    (if c.text.Some? then |c.text.value| else 0) +
    (if c.translation_terms.Some? then TranslationChars(c.translation_terms.value) else 0)
  }

  /** `estimateTokenCount`: a quarter of the merged character count, rounded
      up. */
  function EstimateTokenCount(sets: seq<ContextSetWithDetails>): (r: nat)
    ensures var total := TotalChars(MergedContext(sets));
      4 * r >= total && 4 * (r - 1) < total
    ensures r == 0 <==> TotalChars(MergedContext(sets)) == 0
  {
    (TotalChars(MergedContext(sets)) + 3) / 4
  }

  /** No sets, no tokens. */
  lemma {:induction false} EstimateEmpty()
    ensures EstimateTokenCount([]) == 0
  {
  }
}
