/** The optional value used where the application returns "an entry or undefined". */
module Wrappers {
  datatype Option<+T> = None | Some(value: T)
}

/**
 * The journal's data model: mood levels, the closed vocabulary of emotion tags,
 * the journal entry record and the argument shapes of the store's operations.
 */
module Types {
  import opened Wrappers

  /** A mood level is one of the integers 1, 2, 3, 4, 5. */
  type Mood = m: int | 1 <= m <= 5 witness 3

  /** The default mood of a fresh form ("Neutral"). */
  const DefaultMood: Mood := 3

  /** The twelve emotion tags; no free-form tag exists. */
  datatype Emotion =
    | Happy | Sad | Anxious | Calm | Angry | Excited
    | Tired | Motivated | Stressed | Relaxed | Grateful | Frustrated

  /** The twelve tags in the order the type declares them. */
  const AllEmotions: seq<Emotion> :=
    [Happy, Sad, Anxious, Calm, Angry, Excited, Tired, Motivated, Stressed, Relaxed, Grateful, Frustrated]

  /** The string literal under which a tag is stored and displayed. */
  function Label(e: Emotion): (s: string)
    ensures s != [] && forall i :: 0 <= i < |s| ==> 'a' <= s[i] <= 'z'
  {
    match e
    case Happy => "happy"
    case Sad => "sad"
    case Anxious => "anxious"
    case Calm => "calm"
    case Angry => "angry"
    case Excited => "excited"
    case Tired => "tired"
    case Motivated => "motivated"
    case Stressed => "stressed"
    case Relaxed => "relaxed"
    case Grateful => "grateful"
    case Frustrated => "frustrated"
  }

  /** No two tags share a label, so the twelve labels are exactly the twelve tags. */
  lemma LabelInjective(a: Emotion, b: Emotion)
    ensures Label(a) == Label(b) ==> a == b
  {
    if Label(a) == Label(b) {
      assert |Label(a)| >= 3;
      assert Label(a)[..3] == Label(b)[..3];
      assert Label(a)[|Label(a)| - 1] == Label(b)[|Label(b)| - 1];
    }
  }

  /** True when no value occurs twice in `s`. */
  predicate NoDuplicates<T(==)>(s: seq<T>)
  {
    forall i, j :: 0 <= i < j < |s| ==> s[i] != s[j]
  }

  /** The vocabulary lists every tag, each exactly once. */
  lemma AllEmotionsIsVocabulary()
    ensures |AllEmotions| == 12 && NoDuplicates(AllEmotions)
    ensures forall e: Emotion :: e in AllEmotions
  {
    forall e: Emotion ensures e in AllEmotions {
      var i := match e
        case Happy => 0 case Sad => 1 case Anxious => 2 case Calm => 3
        case Angry => 4 case Excited => 5 case Tired => 6 case Motivated => 7
        case Stressed => 8 case Relaxed => 9 case Grateful => 10 case Frustrated => 11;
      assert AllEmotions[i] == e;
    }
  }

  /**
   * A journal entry. `date` is the entry's timestamp as an integer instant
   * (milliseconds since the epoch) standing for its ISO-8601 string.
   */
  datatype Entry = Entry(id: string, date: int, content: string, mood: Mood, emotions: seq<Emotion>)

  /**
   * The argument of `addEntry`. Its declared type is an entry without `id`;
   * a caller may nevertheless hand over an object that still carries one at
   * run time (structural typing lets it through), recorded in `strayId`.
   */
  datatype Draft = Draft(date: int, content: string, mood: Mood, emotions: seq<Emotion>, strayId: Option<string>)

  /** The argument of `updateEntry`: any subset of the fields other than `id`. */
  datatype Patch = Patch(date: Option<int>, content: Option<string>, mood: Option<Mood>, emotions: Option<seq<Emotion>>)

  /** The object `{...draft, id}`: the id written after the spread wins over any stray id. */
  function Minted(d: Draft, id: string): (e: Entry)
    ensures e.id == id
    ensures e.date == d.date && e.content == d.content && e.mood == d.mood && e.emotions == d.emotions
  {
    Entry(id, d.date, d.content, d.mood, d.emotions)
  }

  /** The object `{...e, ...p}`: fields present in `p` replace those of `e`, the others stay. */
  function Merge(e: Entry, p: Patch): (r: Entry)
    ensures r.id == e.id
    ensures r.date == (if p.date.Some? then p.date.value else e.date)
    ensures r.content == (if p.content.Some? then p.content.value else e.content)
    ensures r.mood == (if p.mood.Some? then p.mood.value else e.mood)
    ensures r.emotions == (if p.emotions.Some? then p.emotions.value else e.emotions)
  {
    Entry(
      e.id,
      if p.date.Some? then p.date.value else e.date,
      if p.content.Some? then p.content.value else e.content,
      if p.mood.Some? then p.mood.value else e.mood,
      if p.emotions.Some? then p.emotions.value else e.emotions)
  }

  /** The minted entry does not depend on a stray id in the argument. */
  lemma MintedIgnoresStrayId(d: Draft, stray: Option<string>, id: string)
    ensures Minted(d.(strayId := stray), id) == Minted(d, id)
  {
  }

  /** A patch that carries only a mood changes only the mood. */
  lemma MoodOnlyPatch(e: Entry, m: Mood)
    ensures Merge(e, Patch(None, None, Some(m), None)) == e.(mood := m)
  {
  }
}
