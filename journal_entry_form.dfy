/**
 * The entry form used for editing (and, without an entry, for creating):
 * its fields start from the given entry, a submit calls exactly one store
 * operation, and a delayed completion step ends the submission, notifies the
 * page and clears the fields after a create.
 */
module JournalEntryForm {
  import opened Wrappers
  import opened Types
  import opened JournalContext
  import opened JournalPage

  /** The one store operation a submit performs. */
  datatype StoreCall = AddCall(draft: Draft) | UpdateCall(id: string, patch: Patch)

  /**
   * The call a submit makes: `updateEntry(entry.id, …)` when an entry is being
   * edited, `addEntry(…)` otherwise; both carry the current fields and the
   * submit's date.
   */
  function SubmitCall(editing: Option<Entry>, content: string, mood: Mood, emotions: seq<Emotion>, now: int): (c: StoreCall)
    ensures c.UpdateCall? <==> editing.Some?
    ensures c.UpdateCall? ==> c.id == editing.value.id && c.patch == Patch(Some(now), Some(content), Some(mood), Some(emotions))
    ensures c.AddCall? ==> c.draft == Draft(now, content, mood, emotions, None)
  {
    if editing.Some? then UpdateCall(editing.value.id, Patch(Some(now), Some(content), Some(mood), Some(emotions)))
    else AddCall(Draft(now, content, mood, emotions, None))
  }

  /** The entry list after the store runs the call (`freshId` is the id an add mints). */
  function ApplyCall(es: seq<Entry>, c: StoreCall, freshId: string): seq<Entry>
  {
    match c
    case AddCall(d) => Append(es, d, freshId)
    case UpdateCall(id, p) => Update(es, id, p)
  }

  /**
   * Editing an entry of the list rewrites exactly that entry's date, content,
   * mood and emotions and keeps its id; the list keeps its length.
   */
  lemma EditRewritesEntry(es: seq<Entry>, i: int, content: string, mood: Mood, emotions: seq<Emotion>, now: int, freshId: string)
    requires 0 <= i < |es| && UniqueIds(es)
    ensures var r := ApplyCall(es, SubmitCall(Some(es[i]), content, mood, emotions, now), freshId);
            |r| == |es| && r[i] == Entry(es[i].id, now, content, mood, emotions) &&
            forall j :: 0 <= j < |es| && j != i ==> r[j] == es[j]
  {
    forall j | 0 <= j < |es| && j != i
      ensures es[j].id != es[i].id
    {
      assert Ids(es)[j] == es[j].id && Ids(es)[i] == es[i].id;
    }
  }

  /**
   * Creating appends exactly one entry, carrying the submitted fields and the
   * minted id, after the unchanged earlier entries.
   */
  lemma CreateAppendsEntry(es: seq<Entry>, content: string, mood: Mood, emotions: seq<Emotion>, now: int, freshId: string)
    ensures ApplyCall(es, SubmitCall(None, content, mood, emotions, now), freshId) == es + [Entry(freshId, now, content, mood, emotions)]
  {
  }

  /** The form's heading: 'Edit Journal Entry' when editing, 'New Journal Entry' otherwise. */
  function Heading(editing: bool): (h: string)
    ensures h == "Edit Journal Entry" <==> editing
    ensures h == "New Journal Entry" <==> !editing
  {
    if editing then "Edit Journal Entry" else "New Journal Entry"
  }

  /** The submit button's caption: 'Saving...' while submitting, else by mode. */
  function ButtonCaption(editing: bool, submitting: bool): (c: string)
    ensures c == "Saving..." <==> submitting
    ensures c == "Update Entry" <==> !submitting && editing
    ensures c == "Save Entry" <==> !submitting && !editing
  {
    if submitting then "Saving..." else if editing then "Update Entry" else "Save Entry"
  }

  /** The form's state. */
  class EntryForm {
    const entry: Option<Entry>
    const store: JournalStore
    const onComplete: Option<JournalPageView>
    var content: string
    var mood: Mood
    var emotions: seq<Emotion>
    var isSubmitting: bool

    /** The page objects the completion step may change. */
    function Notified(): set<JournalPageView>
    {
      if onComplete.Some? then {onComplete.value} else {}
    }

    /** `isEditing`: an entry was supplied. */
    predicate IsEditing()
    {
      entry.Some?
    }

    /** The fields start from the entry; without one they are empty, mood 3 and no tags. */
    constructor (entry: Option<Entry>, store: JournalStore, onComplete: Option<JournalPageView>)
      ensures this.entry == entry && this.store == store && this.onComplete == onComplete
      ensures content == (if entry.Some? then entry.value.content else [])
      ensures mood == (if entry.Some? then entry.value.mood else DefaultMood)
      ensures emotions == (if entry.Some? then entry.value.emotions else [])
      ensures !isSubmitting
    {
      this.entry := entry;
      this.store := store;
      this.onComplete := onComplete;
      content := if entry.Some? then entry.value.content else [];
      mood := if entry.Some? then entry.value.mood else DefaultMood;
      emotions := if entry.Some? then entry.value.emotions else [];
      isSubmitting := false;
    }

    /** `handleSubmit` up to its timer, with `now` the submit's date and `freshId` the id an add mints. */
    method HandleSubmit(now: int, freshId: string)
      requires store.Valid()
      modifies this, store
      ensures store.Valid()
      ensures store.entries == ApplyCall(old(store.entries), SubmitCall(entry, content, mood, emotions, now), freshId)
      ensures isSubmitting
      ensures content == old(content) && mood == old(mood) && emotions == old(emotions)
    {
      isSubmitting := true;
      var c := SubmitCall(entry, content, mood, emotions, now);
      match c {
        case UpdateCall(id, p) => store.UpdateEntry(id, p);
        case AddCall(d) => store.AddEntry(d, freshId);
      }
    }

    /**
     * The timer's callback: end the submission, call `onComplete` when it was
     * given, and clear the fields only after a create.
     */
    method CompleteSubmit()
      modifies this, Notified()
      ensures !isSubmitting
      ensures if IsEditing() then content == old(content) && mood == old(mood) && emotions == old(emotions)
              else content == [] && mood == DefaultMood && emotions == []
      ensures onComplete.Some? ==> onComplete.value.State() == Step(old(onComplete.value.State()), FormComplete)
    {
      isSubmitting := false;
      if onComplete.Some? {
        onComplete.value.HandleFormComplete();
      }
      if !IsEditing() {
        content := [];
        mood := DefaultMood;
        emotions := [];
      }
    }
  }
}
