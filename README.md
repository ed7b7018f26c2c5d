# Emotions Driver mood journal, modelled in Dafny

The application is a mood journal. The user writes journal entries. Each entry has free text, a mood level from 1 to 5 and a list of emotion tags drawn from a closed vocabulary of twelve. This project models the application's logic and proves properties of it:

- **Entry store** (`JournalContext`): the entry list plus the four store operations (`addEntry`, `deleteEntry`, `updateEntry`, `getEntryById`), and the saved slot the list is mirrored into.
- **Mood chart** (`MoodChart`): the aggregation that turns the entries of the last `timeRange` days into a daily series, the time-range switch, and the tooltip's mood label.
- **Journal page** (`JournalPage`): the three view flags, the heading, the two buttons and the newest-first entry list.
- **Entry form** (`JournalEntryForm`): edit or create, a delayed completion step, and a reset only after a create.
- **Emotion-tag picker** (`EmotionTags`): the toggle.
- **Composers** (`JournalEntryComponent` and `FronthackJournalEntry`): two new-entry composers, one wired to the real store and one to a logging mock.
- **Quote panel** (`QuoteDisplay`): which quote is shown, and whether it is visible.

Modelling choices:

- Entry dates are integer instants in milliseconds. A day is `instant / 86400000`, which is the UTC calendar day that `toISOString` yields.
- Moods are the subset type `Mood` (1..5). Chart values are exact `real`s.
- Ids, clocks and `Math.random()` are method parameters. A random number is a `real` `r` with `0 <= r < 1`.
- Each timer callback is a separate method, called after the step that schedules it.
- Objects whose state the code updates in place are classes: the store, the page, the form, the composers, the picker, the chart and the quote panel. Each handler is a method whose `ensures` ties the new state to a pure function of the old one. The properties are proved about those functions.

The chart's effect returns early on an empty entry list and keeps the previous chart data (src/components/features/MoodChart.tsx:24). The component's own empty state, "No mood data available for the selected period" (src/components/features/MoodChart.tsx:185-191), shows that no entries are meant to give an empty chart. The model keeps the code as written and a corrected version side by side; see Findings.

## Model

| member | source | states |
|---|---|---|
| Types.Label | src/types/index.ts:3-15 | each tag is stored as its literal, a non-empty word of lower-case letters |
| Types.LabelInjective | src/types/index.ts:3-15 | two tags with the same literal are the same tag |
| Types.AllEmotionsIsVocabulary | src/types/index.ts:3-15 | the vocabulary has exactly twelve tags, each listed once, and every tag is among them |
| Types.Minted | src/context/JournalContext.tsx:23-26 | the new entry carries the minted id and the argument's date, content, mood and emotions |
| Types.MintedIgnoresStrayId | src/context/JournalContext.tsx:23-26 | an id the caller left in the argument does not change the stored entry: the minted id wins |
| Types.Merge | src/context/JournalContext.tsx:37 | the merged entry keeps its id; each other field comes from the patch when present, otherwise it keeps its old value |
| Types.MoodOnlyPatch | src/types/index.ts:39 | a partial entry that carries only a mood changes only the mood |
| JournalContext.Append | src/context/JournalContext.tsx:22-28 | one entry is added, at the end, with the given fields and id; the earlier entries are unchanged and in order |
| JournalContext.Remove | src/context/JournalContext.tsx:30-32 | the result is no longer than the input and holds no entry with the id |
| JournalContext.RemoveMembers | src/context/JournalContext.tsx:30-32 | an entry survives the delete exactly when it was present and has a different id |
| JournalContext.RemoveConcat | src/context/JournalContext.tsx:31 | deleting from a concatenation deletes from each part |
| JournalContext.RemoveKeepsOrder | src/context/JournalContext.tsx:31 | the delete keeps the other entries in their original order: each one is kept or dropped in place |
| JournalContext.RemoveAbsentIsNoOp | src/context/JournalContext.tsx:30-32 | deleting an absent id leaves the list unchanged |
| JournalContext.RemoveIdempotent | src/context/JournalContext.tsx:30-32 | deleting twice equals deleting once |
| JournalContext.RemoveKeepsUnique | src/context/JournalContext.tsx:30-32 | if the ids were distinct before a delete, they stay distinct |
| JournalContext.Update | src/context/JournalContext.tsx:34-40 | length and order are kept; each entry with the id is merged with the patch, and the others are unchanged |
| JournalContext.UpdateKeepsIds | src/context/JournalContext.tsx:34-40 | an update never changes any id, so distinct ids stay distinct |
| JournalContext.UpdateAbsentIsNoOp | src/context/JournalContext.tsx:34-40 | updating an absent id leaves the list unchanged |
| JournalContext.Find | src/context/JournalContext.tsx:42-44 | the result is none exactly when no entry has the id; otherwise it is a listed entry with that id |
| JournalContext.FindIsFirst | src/context/JournalContext.tsx:42-44 | the result is the first entry with the id |
| JournalContext.FindAfterRemove | src/context/JournalContext.tsx:30-44 | after the id is deleted, a lookup finds nothing |
| JournalContext.FindAfterAppend | src/context/JournalContext.tsx:22-44 | after an add with a fresh id, looking that id up returns the added entry |
| JournalContext.AppendKeepsUnique | src/context/JournalContext.tsx:22-28 | with distinct ids and a fresh minted id, the ids stay distinct after an add |
| JournalContext.JournalStore.constructor | src/context/JournalContext.tsx:10-16 | the list is the saved list when there is one, otherwise empty; the slot mirrors the list |
| JournalContext.JournalStore.AddEntry | src/context/JournalContext.tsx:22-28 | the list becomes Append of the old list, and the slot still mirrors it |
| JournalContext.JournalStore.DeleteEntry | src/context/JournalContext.tsx:30-32 | the list becomes Remove of the old list, and the slot still mirrors it |
| JournalContext.JournalStore.UpdateEntry | src/context/JournalContext.tsx:34-40 | the list becomes Update of the old list, and the slot still mirrors it |
| JournalContext.JournalStore.GetEntryById | src/context/JournalContext.tsx:42-44 | returns a stored entry with the id, or none exactly when no stored entry has it |
| JournalContext.Reload | src/context/JournalContext.tsx:10-20 | a store loaded from the slot after any mutation holds the same list |
| EmotionTags.EmotionOptionsCoverVocabulary | src/components/ui/EmotionTags.tsx:10-23 | the twelve buttons offer every tag exactly once, so only vocabulary tags can be toggled |
| EmotionTags.Without | src/components/ui/EmotionTags.tsx:33 | the filter drops every occurrence of the tag and adds nothing |
| EmotionTags.WithoutConcat | src/components/ui/EmotionTags.tsx:33 | filtering a concatenation filters each part and joins the results |
| EmotionTags.WithoutKeepsOrder | src/components/ui/EmotionTags.tsx:33 | read from the front, the filter walks the list in order, drops each occurrence of the tag and keeps every other tag in its place |
| EmotionTags.WithoutKeepsOthers | src/components/ui/EmotionTags.tsx:33 | the filter keeps every other tag that was present |
| EmotionTags.WithoutAbsent | src/components/ui/EmotionTags.tsx:33 | filtering out an absent tag changes nothing |
| EmotionTags.WithoutNoDuplicates | src/components/ui/EmotionTags.tsx:33 | filtering keeps a list duplicate-free |
| EmotionTags.Toggle | src/components/ui/EmotionTags.tsx:32-34 | after the toggle the tag is present exactly when it was absent; an absent tag is appended at the end |
| EmotionTags.ToggleKeepsOthers | src/components/ui/EmotionTags.tsx:32-34 | the toggle does not change whether any other tag is present |
| EmotionTags.ToggleKeepsOrder | src/components/ui/EmotionTags.tsx:32-34 | toggling a present tag is exactly the order-keeping filter; either way, leaving the toggled tag aside, the list is unchanged |
| EmotionTags.ToggleTwiceAbsent | src/components/ui/EmotionTags.tsx:32-34 | toggling an absent tag twice gives back the original list |
| EmotionTags.ToggleNoDuplicates | src/components/ui/EmotionTags.tsx:32-34 | the toggle keeps a list duplicate-free |
| EmotionTags.EmotionPicker.constructor | src/components/ui/EmotionTags.tsx:25-29 | the selection starts as the given selected emotions |
| EmotionTags.EmotionPicker.IsSelected | src/components/ui/EmotionTags.tsx:47 | a button is shown pressed exactly when its tag is selected |
| EmotionTags.EmotionPicker.ToggleEmotion | src/components/ui/EmotionTags.tsx:31-38 | the selection becomes the toggled list, and the value handed to the change callback is that same list |
| MoodChart.Window | src/components/features/MoodChart.tsx:27-34 | an entry is kept exactly when it is dated from `timeRange` days before now up to now, both ends included |
| MoodChart.WindowConcat | src/components/features/MoodChart.tsx:31-34 | filtering a concatenation filters each part and joins the results |
| MoodChart.WindowKeepsOrder | src/components/features/MoodChart.tsx:31-34 | read from the front, the filter walks the list in order, keeps each entry inside the window in its place and drops the others |
| MoodChart.WindowOfNothing | src/components/features/MoodChart.tsx:31-34 | with no entry inside the window, the filtered list is empty |
| MoodChart.WindowOfEverything | src/components/features/MoodChart.tsx:31-34 | with every entry inside the window, the filter keeps the whole list in order |
| MoodChart.WindowDaysInRange | src/components/features/MoodChart.tsx:27-48 | a kept entry implies a non-negative range, and its day is one of the `timeRange + 1` bucket days |
| MoodChart.BucketCount | src/components/features/MoodChart.tsx:40 | there are `timeRange + 1` buckets for a non-negative range |
| MoodChart.InitBuckets | src/components/features/MoodChart.tsx:36-48 | the loop creates a bucket for each of today and the `timeRange` days before it, each at 0, and nothing else |
| MoodChart.BucketValue | src/components/features/MoodChart.tsx:50-62 | a day's folded value is 0 exactly when no entry falls on it; otherwise it lies in [1, 5] |
| MoodChart.BucketStep | src/components/features/MoodChart.tsx:51-62 | visiting one more entry folds its mood into its own day's bucket and leaves every other bucket alone |
| MoodChart.FillBuckets | src/components/features/MoodChart.tsx:50-62 | the forEach keeps the bucket days and leaves each bucket at its day's folded value; entries on other days are ignored |
| MoodChart.Series | src/components/features/MoodChart.tsx:64-67 | the non-empty buckets in strictly ascending day order, each paired with its folded value; at most one point per bucket |
| MoodChart.SeriesMembers | src/components/features/MoodChart.tsx:64-67 | a day has a point exactly when it is a bucket day and its value is non-zero |
| MoodChart.SeriesOfOneDay | src/components/features/MoodChart.tsx:64-67 | entries that all fall on one bucket day give a single point |
| MoodChart.SeriesOfNothingOnOtherDays | src/components/features/MoodChart.tsx:64-67 | entries that all fall on a day outside the buckets give no points |
| MoodChart.SeriesOfNothing | src/components/features/MoodChart.tsx:65-66 | no entries give no points |
| MoodChart.CollectBuckets | src/components/features/MoodChart.tsx:64-67 | reading the filled buckets gives exactly the series |
| MoodChart.ChartSeries | src/components/features/MoodChart.tsx:23-70 | the chart has at most `timeRange + 1` points, strictly ascending by day, each with a value in [1, 5] |
| MoodChart.Aggregate | src/components/features/MoodChart.tsx:26-69 | filter, bucket initialisation, fold and collection together compute the chart series |
| MoodChart.EntryDayIsCharted | src/components/features/MoodChart.tsx:23-70 | every entry inside the window puts a point on its day, carrying that day's folded value |
| MoodChart.SeriesHasEntryDay | src/components/features/MoodChart.tsx:51-67 | an entry whose day is a bucket day puts that day's point in the series |
| MoodChart.ChartedDayHasEntry | src/components/features/MoodChart.tsx:23-70 | every point's day has an entry inside the window |
| MoodChart.NothingInWindow | src/components/features/MoodChart.tsx:27-67 | with no entry inside the window, the chart is empty |
| MoodChart.ExampleTwoEntries | src/components/features/MoodChart.tsx:23-70 | two entries made today inside the window, with moods 2 and 4, chart as the single point 3 for today |
| MoodChart.PairSeries | src/components/features/MoodChart.tsx:56-67 | moods 2 and 4 on one bucket day fold to 3 and give that day's single point |
| MoodChart.ExampleFoldIsOrderDependent | src/components/features/MoodChart.tsx:56-60 | moods 1, 5, 3 fold to 3, while 3, 5, 1 fold to 2.5: the pairwise average depends on order |
| MoodChart.EffectAsWritten | src/components/features/MoodChart.tsx:23-24 | as written, an empty list leaves the chart data as it was; a non-empty list replaces it by that list's series |
| MoodChart.StaleChartAfterLastDelete | src/components/features/MoodChart.tsx:24 | a journal of one entry inside the window charts a non-empty series; after deleting that entry the as-written effect keeps that series, while the series of no entries is empty |
| MoodChart.Effect | src/components/features/MoodChart.tsx:23-70 | the corrected effect always equals the chart series; in particular, no entries give no points |
| MoodChart.MoodChartView.constructor | src/components/features/MoodChart.tsx:18-21 | the chart data starts empty, and the range starts at `days`, defaulting to 7 |
| MoodChart.MoodChartView.HandleTimeRangeChange | src/components/features/MoodChart.tsx:72-74 | only the range changes |
| MoodChart.MoodChartView.RefreshAsWritten | src/components/features/MoodChart.tsx:23-70 | the effect as written: the data becomes the as-written effect of the entries |
| MoodChart.MoodChartView.Refresh | src/components/features/MoodChart.tsx:23-70 | the corrected effect: the data becomes the chart series of the current entries |
| MoodChart.EmotionFromValue | src/components/features/MoodChart.tsx:81-87 | the label names level k exactly on [k - 0.5, k + 0.5); the ends are open below Very Bad and above Very Good |
| MoodChart.EmotionFromValueMonotone | src/components/features/MoodChart.tsx:81-87 | a larger value never gets a lower label |
| MoodChart.EmotionFromMood | src/components/features/MoodChart.tsx:81-87 | the integer moods 1..5 get Very Bad, Bad, Neutral, Good and Very Good, in that order, with those texts |
| JournalPage.Step | src/components/features/JournalPage.tsx:17-32 | add opens the composer and clears the edited entry; edit opens the form on that entry; completion closes the form, clears the entry and leaves the composer flag alone; cancel clears both flags; no step opens both panels |
| JournalPage.RunKeepsExclusive | src/components/features/JournalPage.tsx:13-32 | from a state without both panels open, no sequence of handlers opens both |
| JournalPage.Title | src/components/features/JournalPage.tsx:44-49 | 'Edit Entry' exactly when the form is open on an entry; 'New Entry' exactly when it is open on none; 'Create New Entry' exactly when only the composer is requested; 'Journal Entries' exactly when neither is |
| JournalPage.NewEntryButtonShown | src/components/features/JournalPage.tsx:52-66 | the New Entry button shows exactly when the Cancel button does not |
| JournalPage.Insert | src/components/features/JournalPage.tsx:34-36 | inserting one entry adds exactly that entry, as a multiset, and keeps a newest-first list newest first |
| JournalPage.SortedEntries | src/components/features/JournalPage.tsx:34-36 | the sorted list is a permutation of the entries, ordered by date, newest first; the input is a value and is not changed |
| JournalPage.JournalPageView.constructor | src/components/features/JournalPage.tsx:13-15 | both flags start false, with no edited entry |
| JournalPage.JournalPageView.HandleAddClick | src/components/features/JournalPage.tsx:17-21 | the state becomes Step of the old state on the add click |
| JournalPage.JournalPageView.HandleEditClick | src/components/features/JournalPage.tsx:23-27 | the state becomes Step of the old state on the edit click of that entry |
| JournalPage.JournalPageView.HandleFormComplete | src/components/features/JournalPage.tsx:29-32 | the state becomes Step of the old state on completion |
| JournalPage.JournalPageView.HandleCancel | src/components/features/JournalPage.tsx:70-73 | the state becomes Step of the old state on cancel |
| JournalEntryForm.SubmitCall | src/components/features/JournalEntryForm.tsx:25-45 | exactly one store call: an update of the entry's id when editing, otherwise an add; both carry the current content, mood and emotions, and the submit's date |
| JournalEntryForm.EditRewritesEntry | src/components/features/JournalEntryForm.tsx:31-37 | with distinct ids, editing rewrites exactly the edited entry's date, content, mood and emotions, keeps its id, and leaves every other entry alone |
| JournalEntryForm.CreateAppendsEntry | src/components/features/JournalEntryForm.tsx:38-45 | creating appends one entry with the form's fields and the minted id |
| JournalEntryForm.Heading | src/components/features/JournalEntryForm.tsx:70-72 | 'Edit Journal Entry' exactly when editing, 'New Journal Entry' exactly when not |
| JournalEntryForm.ButtonCaption | src/components/features/JournalEntryForm.tsx:100-112 | 'Saving...' exactly while submitting, otherwise 'Update Entry' when editing and 'Save Entry' when not |
| JournalEntryForm.EntryForm.constructor | src/components/features/JournalEntryForm.tsx:13-23 | the fields start from the given entry, defaulting to '', 3 and no tags; editing holds exactly when an entry was given |
| JournalEntryForm.EntryForm.HandleSubmit | src/components/features/JournalEntryForm.tsx:25-46 | the store's list becomes the result of the single call; submitting is set, and the fields are kept |
| JournalEntryForm.EntryForm.CompleteSubmit | src/components/features/JournalEntryForm.tsx:47-59 | submitting ends; the page's completion handler runs only when one was given; the fields reset to '', 3 and no tags only when not editing |
| JsString.TrimStart | src/components/JournalEntry.tsx:65 | the result is a suffix of the input that does not start with whitespace, and every dropped character is whitespace |
| JsString.TrimEnd | src/components/JournalEntry.tsx:65 | the result is a prefix of the input that does not end with whitespace, and every dropped character is whitespace |
| JsString.TrimEmptyIffBlank | src/components/JournalEntry.tsx:65 | `!entry.trim()` holds exactly when every character is ECMAScript whitespace or a line terminator |
| JsString.TrimEndEmpty | src/components/JournalEntry.tsx:65 | trimming the end to nothing means every character was whitespace |
| JsString.Digit | src/components/JournalEntry.tsx:72 | each digit below ten is the decimal character whose value it is |
| JsString.DecimalString | src/components/JournalEntry.tsx:72 | `Date.now().toString()` is a non-empty string of decimal digits, without a leading zero except for 0 itself, whose decimal value is the number |
| JsString.DecimalStringInjective | src/components/JournalEntry.tsx:72 | different clock readings give different id strings |
| JournalEntryComponent.ComposeDraft | src/components/JournalEntry.tsx:65-77 | no entry exactly for whitespace-only text; otherwise an entry with the untrimmed text, the current mood and emotions, and the submit's date |
| JournalEntryComponent.StoredIdIsMinted | src/components/JournalEntry.tsx:71-80 | the clock-based id the composer writes is replaced by the store's minted id |
| JournalEntryComponent.EntryComposer.constructor | src/components/JournalEntry.tsx:53-57 | empty text, mood 3, no tags, not submitting |
| JournalEntryComponent.EntryComposer.HandleSubmit | src/components/JournalEntry.tsx:62-91 | whitespace-only text changes nothing; otherwise the entry is appended unless the add fails; submitting ends false; the fields reset only after a successful add |
| JournalEntryComponent.EntryComposer.HandleEmotionToggle | src/components/JournalEntry.tsx:93-99 | the emotions become the toggled list; nothing else changes |
| FronthackJournalEntry.MockEntryComposer.constructor | fronthack/src/components/JournalEntry.tsx:85-89 | empty text, mood 3, no tags, not submitting |
| FronthackJournalEntry.MockEntryComposer.HandleSubmit | fronthack/src/components/JournalEntry.tsx:94-122 | the logged object is the composed entry, without an id; whitespace-only text logs nothing and changes nothing; any other submit resets the form to '', 3, no tags and ends not submitting |
| FronthackJournalEntry.MockEntryComposer.HandleEmotionToggle | fronthack/src/components/JournalEntry.tsx:124-130 | the emotions become the toggled list; nothing else changes |
| QuoteDisplay.RandomPick | src/components/ui/QuoteDisplay.tsx:61-63 | the random pick is a valid quote index |
| QuoteDisplay.RandomPickReachesAll | src/components/ui/QuoteDisplay.tsx:61-63 | every quote index is picked by some random number |
| QuoteDisplay.NextIndex | src/components/ui/QuoteDisplay.tsx:88 | the next index is in range and differs from the previous one: the following index, wrapping from the last to 0 |
| QuoteDisplay.AdvanceIsRotation | src/components/ui/QuoteDisplay.tsx:88 | k presses of "next quote" move the index k places round the list |
| QuoteDisplay.RotationVisitsAll | src/components/ui/QuoteDisplay.tsx:88 | repeated presses reach every quote |
| QuoteDisplay.RotationReturns | src/components/ui/QuoteDisplay.tsx:88 | ten presses come back to the starting quote |
| QuoteDisplay.AutoIndex | src/components/ui/QuoteDisplay.tsx:73-76 | the auto-change index is in range and differs from the previous one; it is either the random pick or the following index |
| QuoteDisplay.AutoIndexKeepsFreshPick | src/components/ui/QuoteDisplay.tsx:73-76 | the random pick is kept exactly when it differs from the previous index |
| QuoteDisplay.QuoteView.constructor | src/components/ui/QuoteDisplay.tsx:57-64 | the panel starts on a random valid quote, visible |
| QuoteDisplay.QuoteView.HandleNextQuote | src/components/ui/QuoteDisplay.tsx:85-87 | the quote is hidden first; the index is unchanged |
| QuoteDisplay.QuoteView.FinishNextQuote | src/components/ui/QuoteDisplay.tsx:87-90 | the index moves to the following quote, which is shown again |
| QuoteDisplay.QuoteView.IntervalTick | src/components/ui/QuoteDisplay.tsx:66-71 | with auto-change on, a tick hides the quote; with it off, nothing happens |
| QuoteDisplay.QuoteView.FinishAutoChange | src/components/ui/QuoteDisplay.tsx:72-78 | with auto-change on, the index moves to a different valid quote, which is shown; with it off, nothing changes |

## Left out

- `localStorage` and `JSON.parse`/`JSON.stringify` are host I/O (src/context/JournalContext.tsx:11-13, 19). The saved slot is a field that holds the list after every mutation. A malformed slot makes `JSON.parse` throw at load. The model does not represent this, and it does not add a recovery the code lacks.
- An empty-string slot is falsy, so it loads as an empty list, just like an absent one. Both are the constructor's `None`.
- `uuidv4`, `Date.now()`, `new Date()` and `Math.random()` are parameters. Minted ids are assumed fresh wherever uniqueness is claimed.
- JournalContext.JournalStore.AddEntry: it does not model `uuidv4` throwing. The composer's `fails` flag stands for that case.
- Calendar arithmetic is left out. `setDate` works in local time while the day keys come from UTC `toISOString`. The model uses one integer day per 86400000 ms, so the mismatch around daylight-saving changes and time zones is not captured.
- Chart values are exact reals. Floating-point rounding of `(v + mood) / 2` is not modelled.
- The chart's final `sort` is modelled as reading the buckets in ascending day order. The bucket days are distinct, so any correct sort gives that order.
- `formatDate` and the tooltip markup are left out (locale formatting). So are the chart rendering and the range buttons' styling.
- JournalPage.SortedEntries: it does not state that entries with equal dates keep their input order. The model's insertion is stable, like `Array.prototype.sort`, but no lemma states it.
- Timers are left out. Their delays (600 ms, 500 ms, the 10 s interval and its `interval` prop) are not modelled. Each callback is a separate step, and clearing the interval on unmount is not modelled.
- The quote texts and authors are left out. The panel is modelled by its index over ten quotes.
- React rendering, context and hook plumbing are left out, including the `useJournal` provider check, `preventDefault` and re-render timing.
- Plain setters that forward a value are left out: `setContent`, `setMood`, `setEntry` and the mood selector's `onChange`.
- The browser's `required` attribute on the form's textarea is left out. JournalEntryForm.EntryForm.HandleSubmit accepts any content, as the handler itself does.
- In the two composers, `handleSubmit` sets `isSubmitting`, then awaits `addEntry`, and clears the flag in `finally`. A render during the await sees the flag true. The model runs the handler as one step, so that intermediate state is not observable in it.
- Presentation-only components are not part of this model: the 3D mood selector, the particle background, the header, the entry card, `App` and the mood selector.

## Findings

| source | as written | input that shows it | evidently intended | confidence | as-written member | corrected member |
|---|---|---|---|---|---|---|
| src/components/features/MoodChart.tsx:24 | the effect returns early when the entry list is empty, so `chartData` keeps the previous series | a journal of one entry dated inside the window, charted, then that entry is deleted (entries become `[]`) | the chart is recomputed from the current entries, so no entries give an empty chart, matching the empty-state message at src/components/features/MoodChart.tsx:185-191 | not executed | MoodChart.MoodChartView.RefreshAsWritten | MoodChart.MoodChartView.Refresh |
