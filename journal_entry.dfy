/**
 * The new-entry composer (`JournalEntry` component under src/components):
 * free text, a mood, a set of emotion tags, and a submit that rejects blank
 * text, hands a new entry to the store and clears the form.
 */
module JournalEntryComponent {
  import opened Wrappers
  import opened Types
  import opened JsString
  import opened EmotionTags
  import opened JournalContext

  /**
   * The object a submit hands to `addEntry`, or none when the text is blank.
   * `stray` is the id the caller writes into the object itself, if any.
   */
  function ComposeDraft(text: string, mood: Mood, emotions: seq<Emotion>, now: int, stray: Option<string>): (r: Option<Draft>)
    ensures r.None? <==> forall i :: 0 <= i < |text| ==> IsTrimmable(text[i])
    ensures r.Some? ==> r.value == Draft(now, text, mood, emotions, stray)
  {
    TrimEmptyIffBlank(text);
    if Trim(text) == [] then None else Some(Draft(now, text, mood, emotions, stray))
  }

  /**
   * Whatever id the composer writes into the object, the store's minted id
   * is the one the stored entry carries.
   */
  lemma StoredIdIsMinted(es: seq<Entry>, text: string, mood: Mood, emotions: seq<Emotion>, now: int,
                         clock: nat, mintedId: string)
    requires ComposeDraft(text, mood, emotions, now, Some(DecimalString(clock))).Some?
    ensures var d := ComposeDraft(text, mood, emotions, now, Some(DecimalString(clock))).value;
            Append(es, d, mintedId)[|es|] == Entry(mintedId, now, text, mood, emotions)
  {
  }

  /** The composer's state. */
  class EntryComposer {
    const store: JournalStore
    var entry: string
    var mood: Mood
    var emotions: seq<Emotion>
    var isSubmitting: bool

    /** An empty text, mood 3, no tags, not submitting. */
    constructor (store: JournalStore)
      ensures this.store == store
      ensures entry == [] && mood == DefaultMood && emotions == [] && !isSubmitting
    {
      this.store := store;
      entry, mood, emotions, isSubmitting := [], DefaultMood, [], false;
    }

    /**
     * `handleSubmit`. `clock` is `Date.now()` (the id written into the
     * object), `now` the instant of `new Date()`, `mintedId` the id the store
     * mints, and `fails` tells whether `addEntry` throws, which can only
     * happen in the id generator before the list is touched.
     */
    method HandleSubmit(clock: nat, now: int, mintedId: string, fails: bool)
      requires store.Valid()
      modifies this, store
      ensures store.Valid()
      ensures var d := ComposeDraft(old(entry), old(mood), old(emotions), now, Some(DecimalString(clock)));
        if d.None? then
          && store.entries == old(store.entries)
          && entry == old(entry) && mood == old(mood) && emotions == old(emotions)
          && isSubmitting == old(isSubmitting)
        else
          && store.entries == (if fails then old(store.entries) else Append(old(store.entries), d.value, mintedId))
          && !isSubmitting
          && (if fails then entry == old(entry) && mood == old(mood) && emotions == old(emotions)
              else entry == [] && mood == DefaultMood && emotions == [])
    {
      var d := ComposeDraft(entry, mood, emotions, now, Some(DecimalString(clock)));
      if d.None? {
        return;
      }
      isSubmitting := true;
      if !fails {
        store.AddEntry(d.value, mintedId);
        entry := [];
        mood := DefaultMood;
        emotions := [];
      }
      isSubmitting := false;
    }

    /** `handleEmotionToggle`. */
    method HandleEmotionToggle(e: Emotion)
      modifies this
      ensures emotions == Toggle(old(emotions), e)
      ensures entry == old(entry) && mood == old(mood) && isSubmitting == old(isSubmitting)
    {
      emotions := Toggle(emotions, e);
    }
  }
}
