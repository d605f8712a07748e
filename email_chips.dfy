/**
 * The e-mail chip input used to invite people to a session
 * (src/components/email-chip-input.tsx): the list of addresses shown as
 * chips, the text being typed, the suggestions offered and the highlighted
 * suggestion.
 *
 * The list is the parent's state, updated through `onChange`; the model
 * applies each change at once. The user search is outside the model: its
 * outcomes arrive as `OnSuggestions`, `OnSearchFailed` and `OnShortQuery`,
 * and a suggestion is represented by its e-mail address.
 */
module EmailChips {
  import opened Common

  // ---------------------------------------------------------------------
  // The address pattern `^[^\s@]+@[^\s@]+\.[^\s@]+$`
  // ---------------------------------------------------------------------

  /** Characters a `[^\s@]` class accepts. */
  predicate Plain(t: string) {
    forall i :: 0 <= i < |t| ==> !IsSpace(t[i]) && t[i] != '@'
  }

  /** The pattern, read as a concatenation: a non-empty plain part, '@', a
      non-empty plain part, '.', and a non-empty plain part, covering the
      whole string. */
  predicate MatchesEmailPattern(s: string) {
    exists k, d :: 0 < k && k + 1 < d && d + 1 < |s| && s[k] == '@' && s[d] == '.' &&
      Plain(s[..k]) && Plain(s[k + 1..d]) && Plain(s[d + 1..])
  }

  /** The same pattern described by what it asks of the string. */
  predicate EmailShape(s: string) {
    && (forall i :: 0 <= i < |s| ==> !IsSpace(s[i]))
    && match IndexOf(s, '@')
       case None => false
       case Some(k) =>
         && k > 0
         && '@' !in s[k + 1..]
         && exists j :: k + 1 < j < |s| - 1 && s[j] == '.'
  }

  lemma {:induction false} PatternGivesShape(s: string)
    requires MatchesEmailPattern(s)
    ensures EmailShape(s)
  {
    var k, d :| 0 < k && k + 1 < d && d + 1 < |s| && s[k] == '@' && s[d] == '.' &&
      Plain(s[..k]) && Plain(s[k + 1..d]) && Plain(s[d + 1..]);
    forall i | 0 <= i < |s| ensures !IsSpace(s[i]) && (i != k ==> s[i] != '@') {
      if i < k {
        assert s[i] == s[..k][i];
      } else if k < i < d {
        assert s[i] == s[k + 1..d][i - k - 1];
      } else if d < i {
        assert s[i] == s[d + 1..][i - d - 1];
      }
    }
    assert IndexOf(s, '@') == Some(k);
    assert '@' !in s[k + 1..];
  }

  lemma {:induction false} ShapeGivesPattern(s: string)
    requires EmailShape(s)
    ensures MatchesEmailPattern(s)
  {
    var k := IndexOf(s, '@').value;
    var d :| k + 1 < d < |s| - 1 && s[d] == '.';
    var local, domain, top := s[..k], s[k + 1..d], s[d + 1..];
    forall i | 0 <= i < |local| ensures !IsSpace(local[i]) && local[i] != '@' {
      assert local[i] == s[i];
    }
    forall i | 0 <= i < |domain| ensures !IsSpace(domain[i]) && domain[i] != '@' {
      assert domain[i] == s[k + 1..][i];
    }
    forall i | 0 <= i < |top| ensures !IsSpace(top[i]) && top[i] != '@' {
      assert top[i] == s[k + 1..][i + d - k];
    }
  }

  /** The pattern accepts exactly the strings without white space that have
      one '@', something before it, and a '.' after it that is neither the
      first nor the last character of the domain. */
  lemma {:induction false} EmailPatternCharacterised(s: string)
    ensures MatchesEmailPattern(s) <==> EmailShape(s)
  {
    if MatchesEmailPattern(s) {
      PatternGivesShape(s);
    }
    if EmailShape(s) {
      ShapeGivesPattern(s);
    }
  }

  // ---------------------------------------------------------------------
  // The component's state and its handlers as functions
  // ---------------------------------------------------------------------

  datatype ChipState = ChipState(
    value: seq<string>,
    inputValue: string,
    suggestions: seq<string>,
    showSuggestions: bool,
    selectedIndex: int)

  datatype Key = Enter | Backspace | ArrowDown | ArrowUp | Escape | OtherKey

  /** Whether `handleAddEmail` takes an address into the list. */
  predicate Accepts(value: seq<string>, email: string) {
    var n := NormalizeEmail(email);
    n != "" && n !in value && MatchesEmailPattern(n)
  }

  /** `handleAddEmail`: the normalised address is appended and the input,
      the suggestions and the highlight are cleared; or nothing changes. */
  function AddEmailStep(st: ChipState, email: string): ChipState {
    if Accepts(st.value, email) then
      ChipState(st.value + [NormalizeEmail(email)], "", [], false, -1)
    else st
  }

  /** `handleRemoveEmail`. */
  function RemoveEmailStep(st: ChipState, email: string): ChipState {
    st.(value := Filter(st.value, e => e != email))
  }

  /** `handleKeyDown`. */
  function KeyDownStep(st: ChipState, key: Key): ChipState {
    match key
    case Enter =>
      if st.selectedIndex >= 0 && st.selectedIndex < |st.suggestions| then
        AddEmailStep(st, st.suggestions[st.selectedIndex])
      else if st.inputValue != "" then AddEmailStep(st, st.inputValue)
      else st
    case Backspace =>
      if st.inputValue == "" && |st.value| > 0 then st.(value := st.value[..|st.value| - 1]) else st
    case ArrowDown =>
      st.(selectedIndex := if st.selectedIndex < |st.suggestions| - 1 then st.selectedIndex + 1 else st.selectedIndex)
    case ArrowUp =>
      st.(selectedIndex := if st.selectedIndex > 0 then st.selectedIndex - 1 else -1)
    case Escape =>
      st.(showSuggestions := false, selectedIndex := -1)
    case OtherKey => st
  }

  /** Results of a search arrive: they are shown, nothing highlighted. */
  function SuggestionsStep(st: ChipState, found: seq<string>): ChipState {
    st.(suggestions := found, showSuggestions := true, selectedIndex := -1)
  }

  /** A failed search clears the suggestions only. */
  function SearchFailedStep(st: ChipState): ChipState {
    st.(suggestions := [])
  }

  /** Under two characters typed, the suggestions are cleared and hidden. */
  function ShortQueryStep(st: ChipState): ChipState {
    st.(suggestions := [], showSuggestions := false)
  }

  /** Focusing the input reopens the suggestion list when it holds any. */
  function FocusStep(st: ChipState): ChipState {
    if |st.suggestions| > 0 then st.(showSuggestions := true) else st
  }

  /** Focus shows the list exactly when it was shown or has entries, changes
      nothing else, and a second focus does nothing more. */
  lemma {:induction false} FocusSpec(st: ChipState)
    ensures FocusStep(st).showSuggestions == (st.showSuggestions || |st.suggestions| > 0)
    ensures FocusStep(st).(showSuggestions := st.showSuggestions) == st
    ensures FocusStep(FocusStep(st)) == FocusStep(st)
  {
  }

  /** The highlight is a suggestion or none. */
  predicate IndexInRange(st: ChipState) {
    -1 <= st.selectedIndex <= |st.suggestions| - 1
  }

  // ---------------------------------------------------------------------
  // Properties of the handlers
  // ---------------------------------------------------------------------

  /** An accepted address is appended once, lower-case and trimmed, and it
      was not in the list before; anything else leaves the state alone. */
  lemma {:induction false} AddEmailSpec(st: ChipState, email: string)
    ensures var st' := AddEmailStep(st, email); var n := NormalizeEmail(email);
      && (Accepts(st.value, email) ==>
            && st'.value == st.value + [n]
            && |st'.value| == |st.value| + 1
            && multiset(st'.value)[n] == 1
            && IsTrimmed(n) && IsLowerCase(n) && EmailShape(n)
            && st'.inputValue == "" && st'.suggestions == [] && !st'.showSuggestions && st'.selectedIndex == -1)
      && (!Accepts(st.value, email) ==> st' == st)
  {
    var n := NormalizeEmail(email);
    if Accepts(st.value, email) {
      NormalizedEmailShape(email);
      EmailPatternCharacterised(n);
      assert multiset(st.value)[n] == 0;
    }
  }

  /** An address already listed, in any case or padding, is not added again. */
  lemma {:induction false} NoDuplicateChips(st: ChipState, email: string)
    requires NormalizeEmail(email) in st.value
    ensures AddEmailStep(st, email) == st
  {
  }

  /** Adding keeps the list free of duplicates. */
  lemma {:induction false} AddKeepsDistinct(st: ChipState, email: string)
    requires Distinct(st.value)
    ensures Distinct(AddEmailStep(st, email).value)
  {
  }

  /** Removing drops every copy of the address and keeps every other address,
      as often as it occurred and in its order; the rest of the state is
      unchanged. */
  lemma {:induction false} RemoveEmailSpec(st: ChipState, email: string)
    ensures var st' := RemoveEmailStep(st, email);
      && email !in st'.value
      && (forall x :: x != email ==> multiset(st'.value)[x] == multiset(st.value)[x])
      && st'.(value := st.value) == st
  {
    var st' := RemoveEmailStep(st, email);
    var p := (e: string) => e != email;
    forall x | x != email ensures multiset(st'.value)[x] == multiset(st.value)[x] {
      FilterMultiset(st.value, p, x);
    }
    FilterMultiset(st.value, p, email);
  }

  /** Backspace on an empty input drops exactly the last chip. */
  lemma {:induction false} BackspaceDropsLast(st: ChipState)
    requires st.inputValue == "" && |st.value| > 0
    ensures var st' := KeyDownStep(st, Backspace);
      st'.value + [st.value[|st.value| - 1]] == st.value && st'.(value := st.value) == st
  {
  }

  /** Enter takes the highlighted suggestion when there is one, else the
      typed text when there is any, else does nothing. */
  lemma {:induction false} EnterChoosesAddress(st: ChipState)
    ensures var st' := KeyDownStep(st, Enter);
      && (0 <= st.selectedIndex < |st.suggestions| ==> st' == AddEmailStep(st, st.suggestions[st.selectedIndex]))
      && (!(0 <= st.selectedIndex < |st.suggestions|) && st.inputValue != "" ==> st' == AddEmailStep(st, st.inputValue))
      && (!(0 <= st.selectedIndex < |st.suggestions|) && st.inputValue == "" ==> st' == st)
  {
  }

  /** The arrow keys and Escape keep the highlight among the suggestions or
      on none, and so do arriving results and added addresses. */
  lemma {:induction false} KeysKeepIndexInRange(st: ChipState, key: Key, found: seq<string>, email: string)
    requires IndexInRange(st)
    ensures IndexInRange(KeyDownStep(st, key))
    ensures IndexInRange(SuggestionsStep(st, found))
    ensures IndexInRange(AddEmailStep(st, email))
  {
  }

  /** ArrowDown stops at the last suggestion and ArrowUp at "none". */
  lemma {:induction false} ArrowsSaturate(st: ChipState)
    requires IndexInRange(st)
    ensures var down := KeyDownStep(st, ArrowDown).selectedIndex;
      down == (if st.selectedIndex == |st.suggestions| - 1 then st.selectedIndex else st.selectedIndex + 1)
    ensures var up := KeyDownStep(st, ArrowUp).selectedIndex;
      up == (if st.selectedIndex <= 0 then -1 else st.selectedIndex - 1)
  {
  }

  /** Clearing the suggestions after a short query or a failed search does
      not reset the highlight, which may then point past the list; Enter
      then falls back to the typed text. */
  lemma {:induction false} ClearedSuggestionsKeepHighlight(st: ChipState)
    requires st.selectedIndex >= 0 && st.inputValue != ""
    ensures !IndexInRange(ShortQueryStep(st)) && !IndexInRange(SearchFailedStep(st))
    ensures var cleared := ShortQueryStep(st);
      KeyDownStep(cleared, Enter) == AddEmailStep(cleared, st.inputValue)
  {
  }

  // ---------------------------------------------------------------------
  // The component as an object
  // ---------------------------------------------------------------------

  class EmailChipInput {
    var value: seq<string>
    var inputValue: string
    var suggestions: seq<string>
    var showSuggestions: bool
    var selectedIndex: int

    function State(): ChipState
      reads this
    {
      ChipState(value, inputValue, suggestions, showSuggestions, selectedIndex)
    }

    constructor (initial: seq<string>)
      ensures State() == ChipState(initial, "", [], false, -1)
    {
      value := initial;
      inputValue := "";
      suggestions := [];
      showSuggestions := false;
      selectedIndex := -1;
    }

    method HandleAddEmail(email: string)
      modifies this
      ensures State() == AddEmailStep(old(State()), email)
    {
      var normalized := Trim(ToLower(email));
      if normalized != "" && normalized !in value && MatchesEmailPattern(normalized) {
        value := value + [normalized];
        inputValue := "";
        showSuggestions := false;
        suggestions := [];
        selectedIndex := -1;
      }
    }

    method HandleRemoveEmail(email: string)
      modifies this
      ensures State() == RemoveEmailStep(old(State()), email)
    {
      value := Filter(value, e => e != email);
    }

    method HandleKeyDown(key: Key)
      modifies this
      ensures State() == KeyDownStep(old(State()), key)
    {
      match key {
        case Enter =>
          if selectedIndex >= 0 && selectedIndex < |suggestions| {
            HandleAddEmail(suggestions[selectedIndex]);
          } else if inputValue != "" {
            HandleAddEmail(inputValue);
          }
        case Backspace =>
          if inputValue == "" && |value| > 0 {
            value := value[..|value| - 1];
          }
        case ArrowDown =>
          if selectedIndex < |suggestions| - 1 {
            selectedIndex := selectedIndex + 1;
          }
        case ArrowUp =>
          selectedIndex := if selectedIndex > 0 then selectedIndex - 1 else -1;
        case Escape =>
          showSuggestions := false;
          selectedIndex := -1;
        case OtherKey =>
      }
    }

    method OnInput(text: string)
      modifies this
      ensures State() == old(State()).(inputValue := text)
    {
      inputValue := text;
    }

    method OnSuggestions(found: seq<string>)
      modifies this
      ensures State() == SuggestionsStep(old(State()), found)
    {
      suggestions := found;
      showSuggestions := true;
      selectedIndex := -1;
    }

    method OnSearchFailed()
      modifies this
      ensures State() == SearchFailedStep(old(State()))
    {
      suggestions := [];
    }

    method OnFocus()
      modifies this
      ensures State() == FocusStep(old(State()))
    {
      if |suggestions| > 0 {
        showSuggestions := true;
      }
    }

    method OnShortQuery()
      modifies this
      ensures State() == ShortQueryStep(old(State()))
    {
      suggestions := [];
      showSuggestions := false;
    }
  }
}
