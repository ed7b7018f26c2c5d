/**
 * The stand-alone copy of the new-entry composer (fronthack/): the same
 * form, wired to a mock `addEntry` that only logs the object and resolves.
 */
module FronthackJournalEntry {
  import opened Wrappers
  import opened Types
  import opened EmotionTags
  import opened JournalEntryComponent

  /** The composer's state. */
  class MockEntryComposer {
    var entry: string
    var mood: Mood
    var emotions: seq<Emotion>
    var isSubmitting: bool

    /** An empty text, mood 3, no tags, not submitting. */
    constructor ()
      ensures entry == [] && mood == DefaultMood && emotions == [] && !isSubmitting
    {
      entry, mood, emotions, isSubmitting := [], DefaultMood, [], false;
    }

    /**
     * `handleSubmit` with `now` the instant of `new Date()`. `logged` is the
     * object handed to the mock `addEntry` (which logs it), if any: it carries
     * no id. The mock always resolves, so every accepted submit clears the form.
     */
    method HandleSubmit(now: int) returns (logged: Option<Draft>)
      modifies this
      ensures logged == ComposeDraft(old(entry), old(mood), old(emotions), now, None)
      ensures logged.None? ==>
        entry == old(entry) && mood == old(mood) && emotions == old(emotions) && isSubmitting == old(isSubmitting)
      ensures logged.Some? ==> entry == [] && mood == DefaultMood && emotions == [] && !isSubmitting
    {
      logged := ComposeDraft(entry, mood, emotions, now, None);
      if logged.None? {
        return;
      }
      isSubmitting := true;
      entry := [];
      mood := DefaultMood;
      emotions := [];
      isSubmitting := false;
    }

    /** `handleEmotionToggle`. */
    method HandleEmotionToggle(e: Emotion)
      modifies this
      ensures emotions == Toggle(old(emotions), e)
      ensures entry == old(entry) && mood == old(mood) && isSubmitting == old(isSubmitting)
    {
      emotions := Toggle(emotions, e);
    }
  }
}
