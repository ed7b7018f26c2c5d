/**
 * The emotion-tag picker: the list of tag buttons and the toggle that adds a
 * tag to the selection or takes it out. The same toggle expression is used by
 * both journal-entry components, which call `Toggle` from here.
 */
module EmotionTags {
  import opened Types

  /** The buttons of the picker, in display order (emoji left out). */
  const EmotionOptions: seq<Emotion> :=
    [Happy, Sad, Anxious, Calm, Angry, Excited, Tired, Motivated, Stressed, Relaxed, Grateful, Frustrated]

  /** The picker offers every tag of the vocabulary, each once. */
  lemma EmotionOptionsCoverVocabulary()
    ensures |EmotionOptions| == 12 && NoDuplicates(EmotionOptions)
    ensures forall e: Emotion :: e in EmotionOptions
  {
    AllEmotionsIsVocabulary();
    assert EmotionOptions == AllEmotions;
  }

  /** `s.filter(x => x !== e)`. */
  function Without(s: seq<Emotion>, e: Emotion): (r: seq<Emotion>)
    ensures |r| <= |s|
    ensures e !in r
    ensures forall x :: x in r ==> x in s
  {
    if s == [] then []
    else if s[|s| - 1] == e then Without(s[..|s| - 1], e)
    else Without(s[..|s| - 1], e) + [s[|s| - 1]]
  }

  /** The filter keeps every other tag. */
  lemma {:induction false} WithoutKeepsOthers(s: seq<Emotion>, e: Emotion, x: Emotion)
    requires x != e
    ensures x in Without(s, e) <==> x in s
  {
    if s != [] {
      assert s == s[..|s| - 1] + [s[|s| - 1]];
      WithoutKeepsOthers(s[..|s| - 1], e, x);
    }
  }

  /** Filtering out a tag that is absent gives back the list. */
  lemma {:induction false} WithoutAbsent(s: seq<Emotion>, e: Emotion)
    requires e !in s
    ensures Without(s, e) == s
  {
    if s != [] {
      assert s == s[..|s| - 1] + [s[|s| - 1]];
      WithoutAbsent(s[..|s| - 1], e);
    }
  }

  /** Filtering a concatenation filters each part. */
  lemma {:induction false} WithoutConcat(a: seq<Emotion>, b: seq<Emotion>, e: Emotion)
    ensures Without(a + b, e) == Without(a, e) + Without(b, e)
    decreases |b|
  {
    if b == [] {
      assert a + b == a;
    } else {
      var init := b[..|b| - 1];
      assert (a + b)[..|a + b| - 1] == a + init;
      assert (a + b)[|a + b| - 1] == b[|b| - 1];
      WithoutConcat(a, init, e);
    }
  }

  /**
   * The filter read from the front: it walks the list in order, dropping each
   * `e` and keeping every other tag in its place.
   */
  lemma {:induction false} WithoutKeepsOrder(s: seq<Emotion>, e: Emotion)
    ensures Without(s, e) == if s == [] then [] else (if s[0] == e then [] else [s[0]]) + Without(s[1..], e)
  {
    if s != [] {
      assert s == [s[0]] + s[1..];
      WithoutConcat([s[0]], s[1..], e);
      assert [s[0]][..0] == [];
    }
  }

  /** The filter keeps a duplicate-free list duplicate-free. */
  lemma {:induction false} WithoutNoDuplicates(s: seq<Emotion>, e: Emotion)
    requires NoDuplicates(s)
    ensures NoDuplicates(Without(s, e))
  {
    if s != [] {
      var init := s[..|s| - 1];
      assert NoDuplicates(init);
      WithoutNoDuplicates(init, e);
      var last := s[|s| - 1];
      if last != e {
        var w := Without(init, e);
        forall k | 0 <= k < |init| ensures init[k] != last {
          assert s[k] == init[k];
        }
        assert last !in w;
        assert Without(s, e) == w + [last];
      }
    }
  }

  /** `toggleEmotion`: filter the tag out when present, else append it at the end. */
  function Toggle(s: seq<Emotion>, e: Emotion): (r: seq<Emotion>)
    ensures e in r <==> e !in s
    ensures e !in s ==> r == s + [e]
  {
    if e in s then Without(s, e) else s + [e]
  }

  /** After a toggle every other tag is selected exactly when it was before. */
  lemma ToggleKeepsOthers(s: seq<Emotion>, e: Emotion, x: Emotion)
    requires x != e
    ensures x in Toggle(s, e) <==> x in s
  {
    if e in s {
      WithoutKeepsOthers(s, e, x);
    }
  }

  /**
   * The other tags keep their relative order: a toggle of a present tag is the
   * order-keeping filter, and removing `e` from either side gives the same list.
   */
  lemma ToggleKeepsOrder(s: seq<Emotion>, e: Emotion)
    ensures e in s ==> Toggle(s, e) == Without(s, e)
    ensures Without(Toggle(s, e), e) == Without(s, e)
  {
    if e in s {
      WithoutAbsent(Without(s, e), e);
    } else {
      assert (s + [e])[..|s|] == s;
    }
  }

  /** Toggling an absent tag twice restores the list. */
  lemma ToggleTwiceAbsent(s: seq<Emotion>, e: Emotion)
    requires e !in s
    ensures Toggle(Toggle(s, e), e) == s
  {
    assert (s + [e])[..|s|] == s;
    WithoutAbsent(s, e);
  }

  /** A duplicate-free selection stays duplicate-free. */
  lemma ToggleNoDuplicates(s: seq<Emotion>, e: Emotion)
    requires NoDuplicates(s)
    ensures NoDuplicates(Toggle(s, e))
  {
    if e in s {
      WithoutNoDuplicates(s, e);
    }
  }

  /** The picker's local `selected` state. */
  class EmotionPicker {
    var selected: seq<Emotion>

    /** The selection starts from the `selectedEmotions` prop. */
    constructor (selectedEmotions: seq<Emotion>)
      ensures selected == selectedEmotions
    {
      selected := selectedEmotions;
    }

    /** Whether the button of `e` is shown pressed. */
    function IsSelected(e: Emotion): (b: bool)
      reads this
      ensures b <==> e in selected
    {
      e in selected
    }

    /**
     * A click on the button of `e`: the new list becomes the local state and
     * is the value handed to `onChange`.
     */
    method ToggleEmotion(e: Emotion) returns (pushed: seq<Emotion>)
      modifies this
      ensures selected == Toggle(old(selected), e)
      ensures pushed == selected
    {
      var newSelected := Toggle(selected, e);
      selected := newSelected;
      pushed := newSelected;
    }
  }
}
