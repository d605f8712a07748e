/**
 * The dialog a context set is created or edited in
 * (src/components/context/ContextSetFormModal.tsx): its field state, the
 * rows of the three lists, loading a set for editing, and the data it submits.
 *
 * The submission callback and closing the dialog are the caller's; `Submit`
 * returns the data it would hand over.
 */
module ContextForm {
  import opened Common
  import opened Types

  datatype Tab = BasicTab | TermsTab | GeneralTab | TranslationTab | TextTab

  const NameRequired := "Name is required"
  const BlankPair := KeyValue("", "")
  const BlankTranslation := SourceTarget("", "")

  // ---------------------------------------------------------------------
  // Normalisation on submit
  // ---------------------------------------------------------------------

  predicate HasText(s: string) {
    !IsBlank(s)
  }

  predicate PairFilled(kv: KeyValue) {
    !IsBlank(kv.key) && !IsBlank(kv.value)
  }

  predicate TranslationFilled(st: SourceTarget) {
    !IsBlank(st.source) && !IsBlank(st.target)
  }

  function TrimPair(kv: KeyValue): KeyValue {
    KeyValue(Trim(kv.key), Trim(kv.value))
  }

  function TrimTranslation(st: SourceTarget): SourceTarget {
    SourceTarget(Trim(st.source), Trim(st.target))
  }

  /** `s.trim() || undefined`. */
  function TrimmedOrNone(s: string): Option<string> {
    if IsBlank(s) then None else Some(Trim(s))
  }

  /** The data `handleSubmit` hands over, or nothing when the name is blank. */
  function SubmitData(name: string, description: string, text: string, isPublic: bool,
                      terms: seq<string>, general: seq<KeyValue>, translations: seq<SourceTarget>): Option<ContextSetFormData>
  {
    if IsBlank(name) then None
    else Some(ContextSetFormData(
      Trim(name),
      TrimmedOrNone(description),
      TrimmedOrNone(text),
      isPublic,
      MapSeq(Filter(terms, HasText), Trim),
      MapSeq(Filter(general, PairFilled), TrimPair),
      MapSeq(Filter(translations, TranslationFilled), TrimTranslation)))
  }

  /** Trimming a string that is not blank leaves text, and no white space at
      either end. */
  lemma {:induction false} TrimKeepsText(s: string)
    requires !IsBlank(s)
    ensures !IsBlank(Trim(s)) && IsTrimmed(Trim(s)) && Trim(Trim(s)) == Trim(s)
  {
    TrimEmptyIffBlank(s);
    TrimEmptyIffBlank(Trim(s));
    TrimEnds(s);
    TrimIdempotent(s);
  }

  /** A submitted term is a typed entry, trimmed, and every entry with text
      is submitted. */
  lemma {:induction false} SubmittedTerms(terms: seq<string>, t: string)
    ensures var r := MapSeq(Filter(terms, HasText), Trim);
      (forall i :: 0 <= i < |r| ==> !IsBlank(r[i]) && IsTrimmed(r[i]))
      && (t in r <==> exists i :: 0 <= i < |terms| && HasText(terms[i]) && Trim(terms[i]) == t)
  {
    var kept := Filter(terms, HasText);
    var r := MapSeq(kept, Trim);
    forall i | 0 <= i < |r| ensures !IsBlank(r[i]) && IsTrimmed(r[i]) {
      TrimKeepsText(kept[i]);
    }
    if t in r {
      var i :| 0 <= i < |r| && r[i] == t;
      assert kept[i] in terms;
    }
    if exists i :: 0 <= i < |terms| && HasText(terms[i]) && Trim(terms[i]) == t {
      var i :| 0 <= i < |terms| && HasText(terms[i]) && Trim(terms[i]) == t;
      FilterKeeps(terms, HasText, terms[i]);
      var j :| 0 <= j < |kept| && kept[j] == terms[i];
      assert r[j] == t;
    }
  }

  /** A submitted pair or translation has both sides non-blank and trimmed. */
  lemma {:induction false} SubmittedPairs(general: seq<KeyValue>, translations: seq<SourceTarget>)
    ensures var g := MapSeq(Filter(general, PairFilled), TrimPair);
      forall i :: 0 <= i < |g| ==> PairFilled(g[i]) && IsTrimmed(g[i].key) && IsTrimmed(g[i].value)
    ensures var t := MapSeq(Filter(translations, TranslationFilled), TrimTranslation);
      forall i :: 0 <= i < |t| ==> TranslationFilled(t[i]) && IsTrimmed(t[i].source) && IsTrimmed(t[i].target)
  {
    var kg := Filter(general, PairFilled);
    forall i | 0 <= i < |kg| ensures PairFilled(TrimPair(kg[i])) && IsTrimmed(Trim(kg[i].key)) && IsTrimmed(Trim(kg[i].value)) {
      TrimKeepsText(kg[i].key);
      TrimKeepsText(kg[i].value);
    }
    var kt := Filter(translations, TranslationFilled);
    forall i | 0 <= i < |kt|
      ensures TranslationFilled(TrimTranslation(kt[i])) && IsTrimmed(Trim(kt[i].source)) && IsTrimmed(Trim(kt[i].target))
    {
      TrimKeepsText(kt[i].source);
      TrimKeepsText(kt[i].target);
    }
  }

  /** A blank name submits nothing; otherwise the name and the optional texts
      are trimmed, and a blank description or text is left undefined. */
  lemma {:induction false} SubmittedScalars(name: string, description: string, text: string, isPublic: bool,
                                            terms: seq<string>, general: seq<KeyValue>, translations: seq<SourceTarget>)
    ensures var r := SubmitData(name, description, text, isPublic, terms, general, translations);
      && (r.None? <==> IsBlank(name))
      && (r.Some? ==>
            && !IsBlank(r.value.name) && IsTrimmed(r.value.name)
            && (r.value.description.None? <==> IsBlank(description))
            && (r.value.description.Some? ==> !IsBlank(r.value.description.value) && IsTrimmed(r.value.description.value))
            && (r.value.text.None? <==> IsBlank(text))
            && (r.value.text.Some? ==> !IsBlank(r.value.text.value) && IsTrimmed(r.value.text.value))
            && r.value.is_public == isPublic)
  {
    if !IsBlank(name) {
      TrimKeepsText(name);
    }
    if !IsBlank(description) {
      TrimKeepsText(description);
    }
    if !IsBlank(text) {
      TrimKeepsText(text);
    }
  }

  /** The optional text put back into its field. */
  function FieldText(o: Option<string>): string {
    if o.Some? then o.value else ""
  }

  lemma {:induction false} TrimmedOrNoneAgain(s: string)
    ensures TrimmedOrNone(FieldText(TrimmedOrNone(s))) == TrimmedOrNone(s)
  {
    if !IsBlank(s) {
      TrimKeepsText(s);
    }
  }

  lemma {:induction false} TermsAgain(terms: seq<string>)
    ensures var r := MapSeq(Filter(terms, HasText), Trim);
      MapSeq(Filter(r, HasText), Trim) == r
  {
    var r := MapSeq(Filter(terms, HasText), Trim);
    SubmittedTerms(terms, "");
    FilterAll(r, HasText);
    forall i | 0 <= i < |r| ensures Trim(r[i]) == r[i] {
      TrimmedIffFixed(r[i]);
    }
  }

  lemma {:induction false} PairsAgain(general: seq<KeyValue>)
    ensures var g := MapSeq(Filter(general, PairFilled), TrimPair);
      MapSeq(Filter(g, PairFilled), TrimPair) == g
  {
    var kg := Filter(general, PairFilled);
    var g := MapSeq(kg, TrimPair);
    forall i | 0 <= i < |g| ensures PairFilled(g[i]) && TrimPair(g[i]) == g[i] {
      TrimKeepsText(kg[i].key);
      TrimKeepsText(kg[i].value);
    }
    FilterAll(g, PairFilled);
  }

  lemma {:induction false} TranslationsAgain(translations: seq<SourceTarget>)
    ensures var t := MapSeq(Filter(translations, TranslationFilled), TrimTranslation);
      MapSeq(Filter(t, TranslationFilled), TrimTranslation) == t
  {
    var kt := Filter(translations, TranslationFilled);
    var t := MapSeq(kt, TrimTranslation);
    forall i | 0 <= i < |t| ensures TranslationFilled(t[i]) && TrimTranslation(t[i]) == t[i] {
      TrimKeepsText(kt[i].source);
      TrimKeepsText(kt[i].target);
    }
    FilterAll(t, TranslationFilled);
  }

  /** Submitting what was submitted, field for field, gives the same data:
      the normalisation is idempotent. */
  lemma {:induction false} SubmitIdempotent(name: string, description: string, text: string, isPublic: bool,
                                            terms: seq<string>, general: seq<KeyValue>, translations: seq<SourceTarget>)
    ensures var r := SubmitData(name, description, text, isPublic, terms, general, translations);
      r.Some? ==>
        SubmitData(r.value.name, FieldText(r.value.description), FieldText(r.value.text), r.value.is_public,
                   r.value.terms, r.value.general, r.value.translation_terms) == r
  {
    if !IsBlank(name) {
      TrimKeepsText(name);
      TrimmedOrNoneAgain(description);
      TrimmedOrNoneAgain(text);
      TermsAgain(terms);
      PairsAgain(general);
      TranslationsAgain(translations);
    }
  }

  // ---------------------------------------------------------------------
  // Rows
  // ---------------------------------------------------------------------

  /** `rows.filter((_, i) => i !== index)`. */
  function RemoveRow<T>(rows: seq<T>, index: int): (r: seq<T>)
    ensures 0 <= index < |rows| ==> |r| == |rows| - 1
    ensures !(0 <= index < |rows|) ==> r == rows
  {
    if 0 <= index < |rows| then rows[..index] + rows[index + 1..] else rows
  }

  /** Removing a row keeps every other row in order, and a list with more
      than one row, the only kind removal is offered on, keeps at least one. */
  lemma {:induction false} RemoveRowSpec<T>(rows: seq<T>, index: int)
    requires 0 <= index < |rows|
    ensures var r := RemoveRow(rows, index);
      && (forall i :: 0 <= i < index ==> r[i] == rows[i])
      && (forall i :: index <= i < |r| ==> r[i] == rows[i + 1])
      && (|rows| > 1 ==> |r| >= 1)
  {
  }

  // ---------------------------------------------------------------------
  // Loading a set for editing
  // ---------------------------------------------------------------------

  function TermText(t: ContextSetTerm): string {
    t.term
  }

  function PairOf(g: ContextSetGeneral): KeyValue {
    KeyValue(g.key, g.value)
  }

  function TranslationOf(t: ContextSetTranslationTerm): SourceTarget {
    SourceTarget(t.source, t.target)
  }

  /** The rows loaded for editing: terms as they are (none stays none), and a
      blank row in place of an empty metadata or translation list. */
  function LoadedTerms(cs: ContextSetWithDetails): seq<string> {
    MapSeq(cs.terms, TermText)
  }

  function LoadedGeneral(cs: ContextSetWithDetails): seq<KeyValue> {
    if |cs.general| > 0 then MapSeq(cs.general, PairOf) else [BlankPair]
  }

  function LoadedTranslations(cs: ContextSetWithDetails): seq<SourceTarget> {
    if |cs.translation_terms| > 0 then MapSeq(cs.translation_terms, TranslationOf) else [BlankTranslation]
  }

  /** Terms load one row each, with none for an empty list, while the two
      pair lists always load at least one row. */
  lemma {:induction false} LoadedRows(cs: ContextSetWithDetails)
    ensures |LoadedTerms(cs)| == |cs.terms|
    ensures forall i :: 0 <= i < |cs.terms| ==> LoadedTerms(cs)[i] == cs.terms[i].term
    ensures cs.general == [] ==> LoadedGeneral(cs) == [BlankPair]
    ensures cs.general != [] ==>
      && |LoadedGeneral(cs)| == |cs.general|
      && forall i :: 0 <= i < |cs.general| ==> LoadedGeneral(cs)[i] == KeyValue(cs.general[i].key, cs.general[i].value)
    ensures cs.translation_terms == [] ==> LoadedTranslations(cs) == [BlankTranslation]
    ensures |LoadedGeneral(cs)| >= 1 && |LoadedTranslations(cs)| >= 1
  {
  }

  // ---------------------------------------------------------------------
  // The dialog as an object
  // ---------------------------------------------------------------------

  class ContextSetForm {
    var activeTab: Tab
    var error: string
    var name: string
    var description: string
    var isPublic: bool
    var terms: seq<string>
    var general: seq<KeyValue>
    var translationTerms: seq<SourceTarget>
    var text: string

    /** The metadata and translation editors always show a row. */
    predicate RowsShown()
      reads this
    {
      |general| >= 1 && |translationTerms| >= 1
    }

    predicate IsReset()
      reads this
    {
      && name == "" && description == "" && !isPublic && terms == [""]
      && general == [BlankPair] && translationTerms == [BlankTranslation] && text == ""
    }

    /** Everything but the three row lists: the scalar fields, the tab and
        the error message. */
    function Scalars(): (string, string, bool, string, Tab, string)
      reads this
    {
      (name, description, isPublic, text, activeTab, error)
    }

    constructor ()
      ensures IsReset() && activeTab == BasicTab && error == "" && RowsShown()
    {
      activeTab := BasicTab;
      error := "";
      name := "";
      description := "";
      isPublic := false;
      terms := [""];
      general := [BlankPair];
      translationTerms := [BlankTranslation];
      text := "";
    }

    /** The load effect: the fields of the set being edited, or the defaults
        when there is none; back to the first tab with no error. */
    method Load(contextSet: Option<ContextSetWithDetails>)
      modifies this
      ensures contextSet.None? ==> IsReset()
      ensures contextSet.Some? ==>
        var cs := contextSet.value;
        && name == cs.name && description == FieldText(cs.description) && isPublic == cs.is_public
        && terms == LoadedTerms(cs) && general == LoadedGeneral(cs)
        && translationTerms == LoadedTranslations(cs) && text == FieldText(cs.text)
      ensures activeTab == BasicTab && error == "" && RowsShown()
    {
      match contextSet {
        case Some(cs) =>
          name := cs.name;
          description := FieldText(cs.description);
          isPublic := cs.is_public;
          terms := LoadedTerms(cs);
          general := LoadedGeneral(cs);
          translationTerms := LoadedTranslations(cs);
          text := FieldText(cs.text);
        case None =>
          name := "";
          description := "";
          isPublic := false;
          terms := [""];
          general := [BlankPair];
          translationTerms := [BlankTranslation];
          text := "";
      }
      activeTab := BasicTab;
      error := "";
    }

    /** `handleSubmit`: a blank name is reported on the first tab and nothing
        is submitted; otherwise the normalised data is. */
    method Submit() returns (submitted: Option<ContextSetFormData>)
      modifies this
      ensures submitted == SubmitData(name, description, text, isPublic, terms, general, translationTerms)
      ensures submitted.None? ==> error == NameRequired && activeTab == BasicTab
      ensures submitted.Some? ==> error == "" && activeTab == old(activeTab)
      ensures name == old(name) && description == old(description) && isPublic == old(isPublic)
      ensures terms == old(terms) && general == old(general)
      ensures translationTerms == old(translationTerms) && text == old(text)
    {
      error := "";
      if IsBlank(name) {
        error := NameRequired;
        activeTab := BasicTab;
        return None;
      }
      var keptTerms := MapSeq(Filter(terms, HasText), Trim);
      var keptGeneral := MapSeq(Filter(general, PairFilled), TrimPair);
      var keptTranslations := MapSeq(Filter(translationTerms, TranslationFilled), TrimTranslation);
      submitted := Some(ContextSetFormData(Trim(name), TrimmedOrNone(description), TrimmedOrNone(text),
                                           isPublic, keptTerms, keptGeneral, keptTranslations));
    }

    /** "Add Term", "Add Metadata", "Add Translation": one blank row more. */
    method AddTerm()
      modifies this
      ensures terms == old(terms) + [""]
      ensures general == old(general) && translationTerms == old(translationTerms)
      ensures Scalars() == old(Scalars())
    {
      terms := terms + [""];
    }

    method AddGeneral()
      modifies this
      ensures general == old(general) + [BlankPair]
      ensures terms == old(terms) && translationTerms == old(translationTerms)
      ensures Scalars() == old(Scalars())
      ensures old(RowsShown()) ==> RowsShown()
    {
      general := general + [BlankPair];
    }

    method AddTranslation()
      modifies this
      ensures translationTerms == old(translationTerms) + [BlankTranslation]
      ensures terms == old(terms) && general == old(general)
      ensures Scalars() == old(Scalars())
      ensures old(RowsShown()) ==> RowsShown()
    {
      translationTerms := translationTerms + [BlankTranslation];
    }

    /** The remove buttons, shown only while a list has more than one row. */
    method RemoveTerm(index: int)
      modifies this
      ensures terms == if |old(terms)| > 1 then RemoveRow(old(terms), index) else old(terms)
      ensures general == old(general) && translationTerms == old(translationTerms)
      ensures Scalars() == old(Scalars())
    {
      if |terms| > 1 {
        terms := RemoveRow(terms, index);
      }
    }

    method RemoveGeneral(index: int)
      modifies this
      ensures general == if |old(general)| > 1 then RemoveRow(old(general), index) else old(general)
      ensures terms == old(terms) && translationTerms == old(translationTerms)
      ensures Scalars() == old(Scalars())
      ensures old(RowsShown()) ==> RowsShown()
    {
      if |general| > 1 {
        general := RemoveRow(general, index);
      }
    }

    method RemoveTranslation(index: int)
      modifies this
      ensures translationTerms ==
        if |old(translationTerms)| > 1 then RemoveRow(old(translationTerms), index) else old(translationTerms)
      ensures terms == old(terms) && general == old(general)
      ensures Scalars() == old(Scalars())
      ensures old(RowsShown()) ==> RowsShown()
    {
      if |translationTerms| > 1 {
        translationTerms := RemoveRow(translationTerms, index);
      }
    }

    /** Editing one row's field changes that field of that row only. */
    method EditTerm(index: nat, value: string)
      requires index < |terms|
      modifies this
      ensures terms == old(terms)[index := value]
      ensures general == old(general) && translationTerms == old(translationTerms)
      ensures Scalars() == old(Scalars())
    {
      terms := terms[index := value];
    }

    method EditGeneralKey(index: nat, key: string)
      requires index < |general|
      modifies this
      ensures general == old(general)[index := KeyValue(key, old(general)[index].value)]
      ensures terms == old(terms) && translationTerms == old(translationTerms)
      ensures Scalars() == old(Scalars())
      ensures old(RowsShown()) ==> RowsShown()
    {
      general := general[index := KeyValue(key, general[index].value)];
    }

    method EditGeneralValue(index: nat, value: string)
      requires index < |general|
      modifies this
      ensures general == old(general)[index := KeyValue(old(general)[index].key, value)]
      ensures terms == old(terms) && translationTerms == old(translationTerms)
      ensures Scalars() == old(Scalars())
      ensures old(RowsShown()) ==> RowsShown()
    {
      general := general[index := KeyValue(general[index].key, value)];
    }

    method EditTranslationSource(index: nat, source: string)
      requires index < |translationTerms|
      modifies this
      ensures translationTerms == old(translationTerms)[index := SourceTarget(source, old(translationTerms)[index].target)]
      ensures terms == old(terms) && general == old(general)
      ensures Scalars() == old(Scalars())
      ensures old(RowsShown()) ==> RowsShown()
    {
      translationTerms := translationTerms[index := SourceTarget(source, translationTerms[index].target)];
    }

    method EditTranslationTarget(index: nat, target: string)
      requires index < |translationTerms|
      modifies this
      ensures translationTerms == old(translationTerms)[index := SourceTarget(old(translationTerms)[index].source, target)]
      ensures terms == old(terms) && general == old(general)
      ensures Scalars() == old(Scalars())
      ensures old(RowsShown()) ==> RowsShown()
    {
      translationTerms := translationTerms[index := SourceTarget(translationTerms[index].source, target)];
    }
  }
}
