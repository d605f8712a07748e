/**
 * Picking context sets to add to a session
 * (src/components/context/ContextSelectorModal.tsx): the sets offered, the
 * selection toggled set by set, and what submitting and closing do.
 *
 * The fetched sets and `onSelect` are outside the model: the sets are a
 * parameter and `onSelect`'s outcome is a flag.
 */
module ContextSelector {
  import opened Common
  import opened Types

  /** The sets offered: the fetched ones not already in the session, in
      their fetched order. */
  function Available(sets: seq<ContextSetWithDetails>, excludeIds: seq<string>): seq<ContextSetWithDetails> {
    Filter(sets, (cs: ContextSetWithDetails) => cs.id !in excludeIds)
  }

  /** `handleToggleSelection`: remove every copy of a selected id, or append
      an id not yet selected. */
  function Toggle(selected: seq<string>, id: string): seq<string> {
    if id in selected then Filter(selected, i => i != id) else selected + [id]
  }

  /** A set is offered exactly as often as it was fetched when its id is not
      excluded, and not at all otherwise. */
  lemma {:induction false} AvailableSpec(sets: seq<ContextSetWithDetails>, excludeIds: seq<string>)
    ensures forall cs ::
      multiset(Available(sets, excludeIds))[cs] == if cs.id in excludeIds then 0 else multiset(sets)[cs]
    ensures forall i :: 0 <= i < |Available(sets, excludeIds)| ==> Available(sets, excludeIds)[i].id !in excludeIds
  {
    forall cs ensures multiset(Available(sets, excludeIds))[cs] == if cs.id in excludeIds then 0 else multiset(sets)[cs] {
      FilterMultiset(sets, (c: ContextSetWithDetails) => c.id !in excludeIds, cs);
    }
  }

  /** Toggling flips whether the id is selected, and the other ids keep
      their number and their order. */
  lemma {:induction false} ToggleSpec(selected: seq<string>, id: string)
    ensures id in Toggle(selected, id) <==> id !in selected
    ensures forall x :: x != id ==> multiset(Toggle(selected, id))[x] == multiset(selected)[x]
    ensures Filter(Toggle(selected, id), i => i != id) == Filter(selected, i => i != id)
  {
    var other := (i: string) => i != id;
    var t := Toggle(selected, id);
    if id in selected {
      FilterMultiset(selected, other, id);
      forall x | x != id ensures multiset(t)[x] == multiset(selected)[x] {
        FilterMultiset(selected, other, x);
      }
      FilterAll(t, other);
    } else {
      FilterAppend(selected, [id], other);
      FilterNone([id], other);
    }
  }

  /** Toggling never selects an id twice. */
  lemma {:induction false} ToggleKeepsDistinct(selected: seq<string>, id: string)
    requires Distinct(selected)
    ensures Distinct(Toggle(selected, id))
  {
    if id in selected {
      FilterDistinct(selected, i => i != id);
    }
  }

  /** Toggling an id that was not selected twice gives the selection back. */
  lemma {:induction false} ToggleTwice(selected: seq<string>, id: string)
    requires id !in selected
    ensures Toggle(Toggle(selected, id), id) == selected
  {
    var other := (i: string) => i != id;
    FilterAppend(selected, [id], other);
    FilterNone([id], other);
    FilterAll(selected, other);
  }

  /** The selection and the search text. */
  datatype SelectorState = SelectorState(selectedIds: seq<string>, search: string)

  /** What a submission does: whether the modal is closed, what `onSelect`
      receives, and the state afterwards. */
  datatype SubmitOutcome = SubmitOutcome(closed: bool, selected: Option<seq<string>>, after: SelectorState)

  /** `handleSubmit`, given whether `onSelect` succeeds. */
  function Submit(st: SelectorState, onSelectSucceeds: bool): SubmitOutcome {
    if |st.selectedIds| == 0 then SubmitOutcome(true, None, st)
    else if onSelectSucceeds then SubmitOutcome(false, Some(st.selectedIds), SelectorState([], ""))
    else SubmitOutcome(false, Some(st.selectedIds), st)
  }

  /** `handleClose`. */
  function Close(st: SelectorState): SelectorState {
    SelectorState([], "")
  }

  /** An empty selection only closes the modal, leaving the search as it is;
      otherwise `onSelect` receives the selection, and the selection and the
      search are cleared when it succeeds and kept when it fails. Closing
      always clears both. */
  lemma {:induction false} SubmitSpec(st: SelectorState, ok: bool)
    ensures var o := Submit(st, ok);
      && (o.selected.None? <==> st.selectedIds == [])
      && (o.closed <==> st.selectedIds == [])
      && (o.selected.Some? ==> o.selected.value == st.selectedIds)
      && (st.selectedIds == [] ==> o.after == st)
      && (st.selectedIds != [] && ok ==> o.after.selectedIds == [] && o.after.search == "")
      && (st.selectedIds != [] && !ok ==> o.after == st)
    ensures Close(st).selectedIds == [] && Close(st).search == ""
  {
  }
}
