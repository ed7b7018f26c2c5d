/**
 * The journal page: which panel is open (the edit form, the new-entry
 * composer or the entry list), the heading and buttons that follow from it,
 * and the newest-first ordering of the entry list.
 */
module JournalPage {
  import opened Wrappers
  import opened Types

  /** The page's three state variables. */
  datatype PageState = PageState(isFormVisible: bool, showNewEntryForm: bool, editEntry: Option<Entry>)

  /** The page's handlers: the add button, an entry card's edit button, the form's completion, cancel. */
  datatype PageEvent = AddClick | EditClick(entry: Entry) | FormComplete | Cancel

  /** Both flags start false and no entry is being edited. */
  const InitialPage: PageState := PageState(false, false, None)

  /** At most one of the two panels is requested at a time. */
  predicate Exclusive(s: PageState)
  {
    !(s.isFormVisible && s.showNewEntryForm)
  }

  /** The state after one handler runs. */
  function Step(s: PageState, ev: PageEvent): (t: PageState)
    ensures Exclusive(t)
    ensures ev.AddClick? ==> t.showNewEntryForm && !t.isFormVisible && t.editEntry == None
    ensures ev.EditClick? ==> t.isFormVisible && !t.showNewEntryForm && t.editEntry == Some(ev.entry)
    ensures ev.FormComplete? ==> !t.isFormVisible && t.editEntry == None && t.showNewEntryForm == s.showNewEntryForm
    ensures ev.Cancel? ==> !t.isFormVisible && !t.showNewEntryForm && t.editEntry == s.editEntry
  {
    match ev
    case AddClick => PageState(false, true, None)
    case EditClick(e) => PageState(true, false, Some(e))
    case FormComplete => s.(isFormVisible := false, editEntry := None)
    case Cancel => s.(isFormVisible := false, showNewEntryForm := false)
  }

  /** The state after a sequence of handlers, in order. */
  function Run(s: PageState, evs: seq<PageEvent>): PageState
    decreases |evs|
  {
    if evs == [] then s else Run(Step(s, evs[0]), evs[1..])
  }

  /** No sequence of handlers opens the edit form and the new-entry composer together. */
  lemma {:induction false} RunKeepsExclusive(s: PageState, evs: seq<PageEvent>)
    requires Exclusive(s)
    ensures Exclusive(Run(s, evs))
    decreases |evs|
  {
    if evs != [] {
      RunKeepsExclusive(Step(s, evs[0]), evs[1..]);
    }
  }

  /** The heading above the panel. */
  function Title(s: PageState): (t: string)
    ensures t == "Edit Entry" <==> s.isFormVisible && s.editEntry.Some?
    ensures t == "New Entry" <==> s.isFormVisible && s.editEntry.None?
    ensures t == "Create New Entry" <==> !s.isFormVisible && s.showNewEntryForm
    ensures t == "Journal Entries" <==> !s.isFormVisible && !s.showNewEntryForm
  {
    if s.isFormVisible then (if s.editEntry.Some? then "Edit Entry" else "New Entry")
    else if s.showNewEntryForm then "Create New Entry"
    else "Journal Entries"
  }

  /** The Cancel button is shown while either panel is requested. */
  function CancelButtonShown(s: PageState): bool
  {
    s.isFormVisible || s.showNewEntryForm
  }

  /** The "New Entry" button is shown exactly when the Cancel button is not. */
  function NewEntryButtonShown(s: PageState): (b: bool)
    ensures b <==> !CancelButtonShown(s)
  {
    !s.isFormVisible && !s.showNewEntryForm
  }

  /** Entries ordered newest first (`b.date - a.date` as comparator). */
  predicate SortedByDateDesc(es: seq<Entry>)
  {
    forall i, j :: 0 <= i < j < |es| ==> es[i].date >= es[j].date
  }

  /**
   * One insertion step of the stable sort: `x` comes after every entry
   * dated no earlier than it.
   */
  function Insert(s: seq<Entry>, x: Entry): (r: seq<Entry>)
    ensures |r| == |s| + 1
    ensures multiset(r) == multiset(s) + multiset{x}
    ensures forall y :: y in r ==> y in s || y == x
    ensures SortedByDateDesc(s) ==> SortedByDateDesc(r)
  {
    if s == [] then [x]
    else
      var init, last := s[..|s| - 1], s[|s| - 1];
      assert s == init + [last];
      if last.date >= x.date then s + [x]
      else
        var p := Insert(init, x);
        assert SortedByDateDesc(s) ==> SortedByDateDesc(p + [last]) by {
          if SortedByDateDesc(s) {
            InsertAboveLast(init, x, last, p);
          }
        }
        p + [last]
  }

  /**
   * Appending `last` below a sorted list keeps it sorted when every entry of
   * the list is dated no earlier than `last`.
   */
  lemma InsertAboveLast(init: seq<Entry>, x: Entry, last: Entry, p: seq<Entry>)
    requires SortedByDateDesc(init + [last]) && x.date > last.date
    requires SortedByDateDesc(p) && forall y :: y in p ==> y in init || y == x
    ensures SortedByDateDesc(p + [last])
  {
    forall i | 0 <= i < |p|
      ensures p[i].date >= last.date
    {
      assert p[i] in p;
      if p[i] != x {
        var k :| 0 <= k < |init| && init[k] == p[i];
        assert (init + [last])[k] == init[k] && (init + [last])[|init|] == last;
      }
    }
  }

  /** `sortedEntries`: a copy of the entry list sorted newest first. */
  function SortedEntries(es: seq<Entry>): (r: seq<Entry>)
    ensures |r| == |es|
    ensures multiset(r) == multiset(es)
    ensures SortedByDateDesc(r)
  {
    if es == [] then []
    else
      assert es == es[..|es| - 1] + [es[|es| - 1]];
      Insert(SortedEntries(es[..|es| - 1]), es[|es| - 1])
  }

  /** The page component's state. */
  class JournalPageView {
    var isFormVisible: bool
    var showNewEntryForm: bool
    var editEntry: Option<Entry>

    /** The three state variables as one value. */
    function State(): PageState
      reads this
    {
      PageState(isFormVisible, showNewEntryForm, editEntry)
    }

    constructor ()
      ensures State() == InitialPage
    {
      isFormVisible, showNewEntryForm, editEntry := false, false, None;
    }

    /** `handleAddClick`. */
    method HandleAddClick()
      modifies this
      ensures State() == Step(old(State()), AddClick)
    {
      editEntry := None;
      showNewEntryForm := true;
      isFormVisible := false;
    }

    /** `handleEditClick(entry)`. */
    method HandleEditClick(entry: Entry)
      modifies this
      ensures State() == Step(old(State()), EditClick(entry))
    {
      editEntry := Some(entry);
      isFormVisible := true;
      showNewEntryForm := false;
    }

    /** `handleFormComplete`. */
    method HandleFormComplete()
      modifies this
      ensures State() == Step(old(State()), FormComplete)
    {
      isFormVisible := false;
      editEntry := None;
    }

    /** The Cancel button's click handler. */
    method HandleCancel()
      modifies this
      ensures State() == Step(old(State()), Cancel)
    {
      isFormVisible := false;
      showNewEntryForm := false;
    }
  }
}
