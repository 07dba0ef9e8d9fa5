# Quiz front-end core, modelled in Dafny

This project models the logic at the heart of the quiz application's React
front-end:

- the bar chart's label wrapping and its layout: bar heights, per-bar widths,
  x offsets, the bottom margin and the label baselines (`BarChart.tsx`);
- the quiz context that holds a running attempt: start, answer selection,
  next/previous navigation, submission and reset (`QuizContext.tsx`);
- the data shaping of the two analytics pages: the score distribution
  normalised into eleven 10-point buckets, and the per-category rows,
  ordered by the category list on the admin page (`AdminAnalyticsPage.tsx`,
  `StudentInsightsPage.tsx`);
- the admin question editor: the save validator, the option editor, the
  A-to-D normalisation of a question being edited, the category filter and
  the form's state changes on load, edit, cancel and submit
  (`AdminQuestionsPage.tsx`).

The files are:

- `common.dfy` (module `Common`): `Option`, API outcomes, decimal numerals, and
  `LastBinding`/`FillMap`, the last-write-wins filling of a `Map` or record from
  a list of pairs.
- `label_wrap.dfy` (module `LabelWrap`): `split(' ')`, the wrapping spec `Wrap`,
  and the loop `WrapLabel` proved against it.
- `bar_chart.dfy` (module `BarChart`).
- `quiz_context.dfy` (module `QuizContext`): the state, its transitions as
  functions, and the class `QuizProvider` whose methods update its fields.
- `analytics.dfy`, `admin_analytics.dfy` and `student_insights.dfy`.
- `admin_questions.dfy` (module `AdminQuestions`): the pure pieces of the
  form, and the class `AdminQuestionsForm` holding the page's state.

Answers of the quiz are a JavaScript object keyed by question id. The model
keeps them as a sequence of `Answer` records with distinct ids, in insertion
order, so `Object.entries` is the sequence itself. JavaScript numbers are
modelled as `real` or `int`. `Math.round(x)` is `floor(x + 1/2)`, and
`Math.ceil` is the least integer not below. The glyph width factor `0.6` is
the exact `3/5`. `Number.MAX_SAFE_INTEGER` is 9007199254740991.

A wrapped chart can have no label line at all: `maxLines` is 0 when wrapping
is on, the data is not empty and every label wraps to no line (an empty or
all-space label). The model keeps that.

## Model

| member | source | states |
|---|---|---|
| Common.LastBinding | src/pages/AdminAnalyticsPage.tsx:43-44 | the value a key holds after setting every pair in order is that of the last pair with the key; absent exactly when no pair has the key |
| Common.LastBindingSkips | src/pages/AdminAnalyticsPage.tsx:44 | a pair for another key does not change what a key holds |
| Common.FillMap | src/pages/StudentInsightsPage.tsx:30-31 | the map filled by `forEach` + `set` holds exactly the keys of the pairs, each with its last value |
| Common.NatToString | src/pages/AdminAnalyticsPage.tsx:47 | a template literal of a natural is a non-empty digit string without leading zero |
| Common.DigitsRoundTrip | src/pages/AdminAnalyticsPage.tsx:58 | the decimal numeral of `n` reads back as `n` |
| LabelWrap.Split | src/components/BarChart.tsx:21 | `split(' ')` returns at least one word |
| LabelWrap.JoinSplit | src/components/BarChart.tsx:21 | joining the words of `split(' ')` with spaces gives back the label |
| LabelWrap.SplitAtSpace | src/components/BarChart.tsx:21 | splitting at a space splits each side on its own |
| LabelWrap.SplitNoSpace | src/components/BarChart.tsx:21 | a label without a space is one word |
| LabelWrap.WrapLabel | src/components/BarChart.tsx:19-44 | the loop computes `Wrap`; with wrapping off (`maxChars <= 0`) the label is one line; otherwise every line is non-empty and at most `maxChars` long, and when every word fits the lines are filled greedily (`WrapGreedy`) |
| LabelWrap.Wrap | src/components/BarChart.tsx:19-44 | with wrapping off (`maxChars <= 0`) the label is its one line; otherwise every wrapped line is non-empty and at most `maxChars` characters; `WrapGreedy` adds that the lines are filled greedily |
| LabelWrap.WrapGreedy | src/components/BarChart.tsx:24-42 | when every word of the label fits in `maxChars`, no line has room for the next line's first word: its length plus a space plus that word exceeds `maxChars` |
| LabelWrap.SplitNoSpaces | src/components/BarChart.tsx:21 | no word of `split(' ')` contains a space |
| LabelWrap.SplitChunksBounded | src/components/BarChart.tsx:31-36 | the hard split of a long word keeps every line within bounds |
| LabelWrap.ChunksConcat | src/components/BarChart.tsx:31-36 | the full chunks of a word followed by its shorter remainder spell the word |
| LabelWrap.ChunksLengths | src/components/BarChart.tsx:32-35 | every full chunk is exactly `maxChars` long, the remainder is shorter, and the lengths add up to the word's |
| LabelWrap.RemainderOfMultiple | src/components/BarChart.tsx:34-35 | a word whose length is a multiple of `maxChars` leaves no remainder |
| LabelWrap.SplitChunksShape | src/components/BarChart.tsx:31-36 | the chunk loop appends the full chunks and carries the remainder, if any, as the pending line |
| LabelWrap.WrapOneWord | src/components/BarChart.tsx:19-44 | a label without spaces wraps into its full chunks followed by its remainder |
| LabelWrap.WrapUnbrokenWord | src/components/BarChart.tsx:19-44 | a label without spaces wraps into lines that spell it, all `maxChars` long except a non-empty last one |
| LabelWrap.WrapKeepsWordsWhole | src/components/BarChart.tsx:24-42 | when every word fits, the wrapped lines joined with spaces give back the label: no word is broken and none lost |
| LabelWrap.PendingLineRepeated | src/components/BarChart.tsx:29-36 | a word whose length is a multiple of `maxChars` leaves the pending line unchanged after pushing it, so it is pushed again later |
| LabelWrap.WrapQuirkExample | src/components/BarChart.tsx:19-44 | `wrapLabel('ab abcdef', 3)` is `['ab', 'abc', 'def', 'ab']`: the pending line comes out twice |
| BarChart.MaxValue | src/components/BarChart.tsx:58 | `Math.max(1, ...values)` is at least 1, bounds every value and is 1 or some value |
| BarChart.MaxVal | src/components/BarChart.tsx:58 | the given `max` wins; otherwise the data's maximum, which is never 0 |
| BarChart.MaxLines | src/components/BarChart.tsx:60 | 1 without data; otherwise the line count of some bar, bounding all of them |
| BarChart.Ceil | src/components/BarChart.tsx:67 | `Math.ceil` is the least integer not below its argument |
| BarChart.TextWidthMonotone | src/components/BarChart.tsx:62 | more characters never make a label narrower |
| BarChart.Longest | src/components/BarChart.tsx:65-66 | the longest wrapped line, or the label's length when it wraps to no line |
| BarChart.BarWidth | src/components/BarChart.tsx:63-69 | a bar is at least `minBarWidth` wide and at least its longest line's text width plus 16, and is the least such width up to the rounding of `Math.ceil` |
| BarChart.BarWidthCoversLines | src/components/BarChart.tsx:63-69 | every line of a bar's label fits in the bar with 16 of padding |
| BarChart.XOffsets | src/components/BarChart.tsx:71-79 | the loop computes `Offsets`: the first bar is at 0 and each bar starts where the previous one ends |
| BarChart.WrapAll | src/components/BarChart.tsx:59 | one stack of lines per datum, in data order, each the datum's label wrapped at `labelWrapChars` |
| BarChart.Offsets | src/components/BarChart.tsx:71-79 | one offset per bar, the first at 0 |
| BarChart.OffsetsTile | src/components/BarChart.tsx:71-80 | no bars make the chart 0 wide; the first bar starts at 0, each bar starts where the previous one ends, and the chart ends where the last bar ends |
| BarChart.ComputeLayout | src/components/BarChart.tsx:58-90 | one wrapped label, width, offset and bar per datum; the ceiling is `MaxVal`, the stacks are `WrapAll` of the labels, the tallest stack is `MaxLines`, each width is `BarWidth` of its label and stack, the offsets are `Offsets` of the widths, the chart width their `Sum`, the bottom margin `BottomMargin`, and each bar is placed by `BarAt` in the chart's frame |
| BarChart.LayoutBarsScaled | src/components/BarChart.tsx:86-90 | in a layout whose bars are placed by `BarAt`, as `ComputeLayout` ensures, every bar's height times the ceiling equals its value times the plot height |
| BarChart.MaxValBounds | src/components/BarChart.tsx:58 | the scale is the given maximum, or at least 1 and above every value, 1 without data |
| BarChart.MaxLinesBounds | src/components/BarChart.tsx:60 | the chart's line count is 1 without data and otherwise the largest label's line count |
| BarChart.WidthsCoverLabels | src/components/BarChart.tsx:63-70 | every bar is at least `minBarWidth` and 16 wide, and each of its label lines fits in it |
| BarChart.BarsTileChart | src/components/BarChart.tsx:71-80 | the bars are laid side by side from 0 without gap or overlap and the chart is exactly as wide as they are together |
| BarChart.BottomMargin | src/components/BarChart.tsx:81 | 40 under rotated labels; otherwise the larger of 24 and the height of the label stack plus 12: at least both, and equal to one of them |
| BarChart.LayoutBottomMargin | src/components/BarChart.tsx:60-81 | the layout's bottom margin follows that rule with the chart's line count |
| BarChart.BarAt | src/components/BarChart.tsx:86-121 | a bar's height is to the plot height as its value is to the ceiling (`height * maxVal == value * plot`); its rectangle is inset 4 pixels on each side of its slot, it ends on the base line, the label is centred on it, and it shows the wrapped lines in wrap mode and the whole label otherwise |
| BarChart.BarOnBase | src/components/BarChart.tsx:88-90 | every bar ends on the base line; a zero value has no height, the maximum value fills the plot, and values in range stay inside it |
| BarChart.BarsStandOnBase | src/components/BarChart.tsx:86-90 | the same for every bar of a layout |
| BarChart.LabelBaseline | src/components/BarChart.tsx:98-101 | a wrapped label starts high enough that its last line sits on the shared label baseline |
| BarChart.LabelBaselinesAligned | src/components/BarChart.tsx:98-110 | the last lines of all wrapped labels are on one baseline, whatever their line counts |
| BarChart.UnwrappedLabels | src/components/BarChart.tsx:113-121 | without wrapping, a label is shown whole on one line 6 above the chart's bottom |
| BarChart.TwoBarExample | src/components/BarChart.tsx:46-90 | with the defaults, bars valued 0 and 10 get a 26 margin, no height and the full 154 height |
| QuizContext.Lookup | src/context/QuizContext.tsx:9 | a question has a recorded answer exactly when its id is a key of the record |
| QuizContext.Put | src/context/QuizContext.tsx:39 | setting an answer adds its question id to the keys, and grows the record only for a new id |
| QuizContext.PutLookup | src/context/QuizContext.tsx:39 | after setting, the question has the new key and every other question keeps its answer |
| QuizContext.PutKeepsDistinct | src/context/QuizContext.tsx:39 | setting keeps one entry per question |
| QuizContext.PutIdempotent | src/context/QuizContext.tsx:39 | setting the same answer twice is setting it once |
| QuizContext.PutKeepsOrder | src/context/QuizContext.tsx:39 | an existing key keeps its position and a new key goes at the end |
| QuizContext.EntriesMatchRecord | src/context/QuizContext.tsx:49 | the entries hold exactly the recorded answers, one per question |
| QuizContext.EmptyState | src/context/QuizContext.tsx:25 | the initial state is idle, without attempt, questions, answers or result, at index 0 |
| QuizContext.AfterStart | src/context/QuizContext.tsx:27-35 | loading ends; a started quiz has the returned attempt and questions, index 0, no answers and no result; a failed start changes nothing else |
| QuizContext.Started | src/context/QuizContext.tsx:31 | a started quiz has the returned attempt and questions, index 0, no answers and no result |
| QuizContext.Settled | src/context/QuizContext.tsx:33 | a failed call only clears the loading flag |
| QuizContext.Selected | src/context/QuizContext.tsx:38-40 | selecting records the key for the question and changes nothing else |
| QuizContext.Advanced | src/context/QuizContext.tsx:42 | next moves one on, but not past the last question, and changes nothing else |
| QuizContext.Retreated | src/context/QuizContext.tsx:43 | prev moves one back, but not before 0, and changes nothing else |
| QuizContext.SubmitPayload | src/context/QuizContext.tsx:46-50 | a submission is sent exactly when there is a non-empty attempt id, and it carries that id |
| QuizContext.AfterSubmit | src/context/QuizContext.tsx:45-55 | without an attempt nothing changes; otherwise loading ends, and a grade becomes the result while a failure keeps the old one |
| QuizContext.NextClamped | src/context/QuizContext.tsx:42 | next keeps a valid index valid, stays on the last question, and gives -1 on an empty quiz |
| QuizContext.PrevClamped | src/context/QuizContext.tsx:43 | prev never goes below 0, stays on the first question, and undoes next away from the end |
| QuizContext.SelectIdempotent | src/context/QuizContext.tsx:38-40 | selecting the same key twice is selecting it once |
| QuizContext.SubmittedAnswersMatchRecord | src/context/QuizContext.tsx:49-50 | the submitted answers are the recorded ones, one per answered question |
| QuizContext.FailureOnlySettles | src/context/QuizContext.tsx:32-34 | a failed start or submit leaves the state as it was apart from the loading flag |
| QuizContext.QuizProvider.constructor | src/context/QuizContext.tsx:25 | the provider starts in the initial state |
| QuizContext.QuizProvider.Start | src/context/QuizContext.tsx:27-36 | loading is set, then the started quiz replaces the state, or the loading flag is cleared and the error raised |
| QuizContext.QuizProvider.Select | src/context/QuizContext.tsx:38-40 | the state becomes `Selected`, keeping one answer per question |
| QuizContext.QuizProvider.Next | src/context/QuizContext.tsx:42 | the state becomes `Advanced`, and the provider's invariant is kept |
| QuizContext.QuizProvider.Prev | src/context/QuizContext.tsx:43 | the state becomes `Retreated`, and the provider's invariant is kept |
| QuizContext.QuizProvider.Submit | src/context/QuizContext.tsx:45-56 | sends the payload only with an attempt; the state becomes `AfterSubmit`, and a failure is raised |
| QuizContext.QuizProvider.Reset | src/context/QuizContext.tsx:58 | the state returns to the initial state |
| QuizContext.TwoQuestionSession | src/context/QuizContext.tsx:27-56 | start, answer two questions, change one answer, next twice and submit: the request carries both final answers in order and the grade becomes the result |
| Analytics.BucketCount | src/pages/AdminAnalyticsPage.tsx:44-47 | `map.get(b) \|\| 0`: the last count given for the bucket, 0 when none |
| Analytics.DistData | src/pages/AdminAnalyticsPage.tsx:45-48 | eleven data, the k-th labelled `10k` and valued with that bucket's count |
| Analytics.NormalizeBuckets | src/pages/AdminAnalyticsPage.tsx:41-50 | the fill and the bucket loop compute `DistData` |
| Analytics.DistLabelsAscending | src/pages/AdminAnalyticsPage.tsx:46-47 | the k-th label reads back as 10k |
| Analytics.DistLabels | src/pages/StudentInsightsPage.tsx:33 | the labels are "0", "10", ..., "100" |
| Analytics.NonBucketRowIgnored | src/pages/StudentInsightsPage.tsx:31-33 | a row whose id is not a bucket has no effect on the chart |
| Analytics.RowOfOtherBucketIgnored | src/pages/StudentInsightsPage.tsx:31-33 | a row for another id does not change a bucket's count |
| Analytics.Round | src/pages/AdminAnalyticsPage.tsx:59 | `Math.round` is within half a unit, halves rounded up |
| Analytics.RoundUnique | src/pages/AdminAnalyticsPage.tsx:59 | the rounding is the only integer in that half-open window |
| Analytics.CategoryLabel | src/pages/AdminAnalyticsPage.tsx:58 | the label is the category, then " (n=", then the total, then ")" |
| Analytics.CategoryLabelTotal | src/pages/StudentInsightsPage.tsx:37 | the count in the label is a numeral that reads back as the total |
| Analytics.CategoryDatum | src/pages/AdminAnalyticsPage.tsx:57-60 | a category bar is labelled by `CategoryLabel` and valued with the accuracy rounded to an integer |
| AdminAnalytics.Rank | src/pages/AdminAnalyticsPage.tsx:53-55 | a listed category ranks by its last position in the list; an unlisted one ranks `MAX_SAFE_INTEGER` |
| AdminAnalytics.Insert | src/pages/AdminAnalyticsPage.tsx:54-56 | one step of the sort yields one row more |
| AdminAnalytics.SortByRank | src/pages/AdminAnalyticsPage.tsx:54-56 | the sort yields as many rows as it is given |
| AdminAnalytics.InsertPermutes | src/pages/AdminAnalyticsPage.tsx:54-56 | one step of the sort adds the row and loses none |
| AdminAnalytics.InsertSorted | src/pages/AdminAnalyticsPage.tsx:54-56 | one step of the sort keeps the rows ordered by rank |
| AdminAnalytics.InsertStable | src/pages/AdminAnalyticsPage.tsx:54-56 | one step of the sort puts the row after every row of the same rank |
| AdminAnalytics.SortPermutes | src/pages/AdminAnalyticsPage.tsx:54-56 | the sorted rows are a permutation of the rows |
| AdminAnalytics.SortSorts | src/pages/AdminAnalyticsPage.tsx:54-56 | the sorted rows are ordered by rank |
| AdminAnalytics.SortStable | src/pages/AdminAnalyticsPage.tsx:54-56 | rows of equal rank keep their order, as the stable `Array.prototype.sort` does |
| AdminAnalytics.SortKeepsSorted | src/pages/AdminAnalyticsPage.tsx:54-56 | rows already in order are left as they are |
| AdminAnalytics.ListedFirst | src/pages/AdminAnalyticsPage.tsx:53-56 | listed categories come before unlisted ones, in list order |
| AdminAnalytics.CatData | src/pages/AdminAnalyticsPage.tsx:52-61 | one bar per category row |
| AdminAnalytics.CatDataFromRows | src/pages/AdminAnalyticsPage.tsx:52-61 | the bars are the category data of a permutation of the rows |
| AdminAnalytics.OrderedRowsChartAlike | src/pages/AdminAnalyticsPage.tsx:52-61 | for rows already in list order the admin chart equals the student chart |
| AdminAnalytics.SortExample | src/pages/AdminAnalyticsPage.tsx:53-56 | with the list Hair, Beard, Tools, rows Tools, Misc, Hair, Beard come out Hair, Beard, Tools, Misc |
| StudentInsights.CatData | src/pages/StudentInsightsPage.tsx:37 | one bar per row, in the rows' order, each the row's `CategoryDatum`: labelled with the category, " (n=", the total and ")", and valued with the accuracy rounded to an integer |
| StudentInsights.CatDataAppend | src/pages/StudentInsightsPage.tsx:37 | the bars of two row lists side by side are the bars of both lists |
| AdminQuestions.TrimStart | src/pages/AdminQuestionsPage.tsx:29 | removes exactly the leading white space of a string |
| AdminQuestions.TrimEnd | src/pages/AdminQuestionsPage.tsx:29 | removes exactly the trailing white space of a string |
| AdminQuestions.TrimEmptyIffBlank | src/pages/AdminQuestionsPage.tsx:29 | a string trims to nothing exactly when it is all white space |
| AdminQuestions.CanSave | src/pages/AdminQuestionsPage.tsx:29 | a savable form has a question longer than 3 characters and no empty option text |
| AdminQuestions.CanSaveIff | src/pages/AdminQuestionsPage.tsx:29 | saving is enabled exactly when the trimmed question is longer than 3 and every option has a non-space character |
| AdminQuestions.UpdatedOptions | src/pages/AdminQuestionsPage.tsx:45-47 | the option at the index takes the text; every key and every other option stays |
| AdminQuestions.UpdateOptionLastWins | src/pages/AdminQuestionsPage.tsx:45-47 | an index outside the options changes nothing, and the last edit of an option wins |
| AdminQuestions.TextFor | src/pages/AdminQuestionsPage.tsx:85-91 | an option's text is '' or the text of one of the question's options with that key |
| AdminQuestions.TextForLast | src/pages/AdminQuestionsPage.tsx:85-91 | an option's text is that of the question's last option with the key, '' when there is none |
| AdminQuestions.EditOptions | src/pages/AdminQuestionsPage.tsx:86-92 | the edited options are A, B, C and D, in that order, each with `TextFor` its key over the question's options (none when absent) |
| AdminQuestions.NormalizeOptions | src/pages/AdminQuestionsPage.tsx:84-92 | filling the record and reading A to D computes `EditOptions` |
| AdminQuestions.EditWithoutOptions | src/pages/AdminQuestionsPage.tsx:86-92 | a question with absent or no options is edited with four blank options |
| AdminQuestions.OtherKeysDropped | src/pages/AdminQuestionsPage.tsx:86-92 | an option keyed other than A to D has no effect on the form |
| AdminQuestions.FilteredList | src/pages/AdminQuestionsPage.tsx:106-109 | 'All' shows the whole list; otherwise only questions of the chosen category |
| AdminQuestions.FilteredListAppend | src/pages/AdminQuestionsPage.tsx:108 | filtering keeps list order: filtering a concatenation filters each part |
| AdminQuestions.FilteredListCounts | src/pages/AdminQuestionsPage.tsx:108 | every question of the category is kept as often as it occurs, and no other |
| AdminQuestions.ErrorText | src/pages/AdminQuestionsPage.tsx:37 | the server's message when it is present and non-empty; the fallback text when it is absent or empty |
| AdminQuestions.InitialForm | src/pages/AdminQuestionsPage.tsx:12-27 | the first state has the first category, filter 'All' and an empty list, is not saving, has no error and is not loading, is already reset, cannot be saved and edits no question |
| AdminQuestions.Edited | src/pages/AdminQuestionsPage.tsx:80-94 | after `onEdit` the form holds the question's id, text and correct key, its explanation or '' when absent, and `EditOptions` of its options; it edits the question exactly when its id is non-empty, and differs from the old form only in the edited fields and the category |
| AdminQuestions.Cleared | src/pages/AdminQuestionsPage.tsx:61-65 | question, options, correct key, explanation and edited id are reset, nothing else |
| AdminQuestions.Loaded | src/pages/AdminQuestionsPage.tsx:31-41 | loading ends; the list is replaced, or 'Failed to load' or the server's message becomes the error; nothing but the list, the error and the loading flag changes |
| AdminQuestions.SaveRequestOf | src/pages/AdminQuestionsPage.tsx:55-60 | an update of the edited id exactly when one is set and non-empty, else a create; the payload carries the form's category, text, options and correct key; an empty explanation is sent as absent and any other as itself |
| AdminQuestions.Submitted | src/pages/AdminQuestionsPage.tsx:49-72 | nothing for a non-admin; a saved question clears the form and reloads the list; a failure records 'Failed to create' or the server's message; saving ends |
| AdminQuestions.ClearedCannotSave | src/pages/AdminQuestionsPage.tsx:61-65 | after a reset or a successful save the form cannot be saved, keeps its category and edits no question |
| AdminQuestions.ClearIdempotent | src/pages/AdminQuestionsPage.tsx:98-104 | cancelling twice is cancelling once, and the options are the blank ones |
| AdminQuestions.AdminQuestionsForm.constructor | src/pages/AdminQuestionsPage.tsx:12-27 | the form starts with the first category, blank options, key A, filter 'All' and nothing edited |
| AdminQuestions.AdminQuestionsForm.UpdateOption | src/pages/AdminQuestionsPage.tsx:45-47 | only the options change, to `UpdatedOptions` |
| AdminQuestions.AdminQuestionsForm.Load | src/pages/AdminQuestionsPage.tsx:31-41 | the state becomes `Loaded` |
| AdminQuestions.AdminQuestionsForm.OnEdit | src/pages/AdminQuestionsPage.tsx:80-94 | the form takes the question's id, category, text, A-to-D options, correct key and explanation |
| AdminQuestions.AdminQuestionsForm.CancelEdit | src/pages/AdminQuestionsPage.tsx:98-104 | the state becomes `Cleared` |
| AdminQuestions.AdminQuestionsForm.OnSubmit | src/pages/AdminQuestionsPage.tsx:49-72 | an admin's submit sends `SaveRequestOf` the form and the state becomes `Submitted`; a non-admin's sends nothing and changes nothing |

## Left out

- Rendering: the SVG elements, colours, `showValues`, `valueFormatter`, tooltips, the `<tspan>` offsets and the rotation transform are not modelled; only the numbers they are drawn from are.
- The services (`QuizService`, `QuestionService`, the analytics service) and HTTP: each call's outcome is a parameter of the member that awaits it.
- `AuthContext`: the signed-in user's role is a parameter of `OnSubmit`; the effect that loads the list for an admin (`AdminQuestionsPage.tsx:43`) is the `Load` method called by the environment.
- `onDelete` (`AdminQuestionsPage.tsx:74-78`): it needs the browser's `confirm` dialog and the delete call, and changes the form only through `load`, which is modelled.
- The `category` argument of `start` is only passed to the quiz service, which is not part of this model.
- `constants/categories` is not part of this model: the category list is a parameter of the admin chart, and its first entry a parameter of the form's constructor.
- Asynchronous interleavings: React batches state updates and handlers may overlap. Each handler is modelled as running to completion on the state it was called with; stale closures and races are not captured.
- Floating point: values, heights and accuracies are exact reals, so NaN, infinities and rounding error are out. `max: 0` is excluded by the requirement of `BarChart.ComputeLayout`: in the code it divides every value by zero, so a positive value gets an Infinity height, a negative one -Infinity and a zero one NaN.
- String lengths are counted in characters, not UTF-16 code units.
- Non-integer numbers in the chart's configuration (`labelWrapChars`, `height`, `labelFontSize`, `minBarWidth`) are not modelled: the model takes them as integers, which is what every chart in the repository passes or leaves at its default. Nor are values the declared types exclude but JavaScript would carry at run time (an absent `correctKey` or option text, a non-string error message).
- AdminAnalytics.Insert, AdminAnalytics.SortByRank: their own contracts give only the length; the permutation, the rank order and the stability they keep are stated by `InsertPermutes`, `InsertSorted`, `InsertStable`, `SortPermutes`, `SortSorts` and `SortStable`.
- BarChart.BarsStandOnBase: does not restate that a bar's height times the ceiling is its value times the plot height. `BarAt` ensures it for every bar it places, and `LayoutBarsScaled` lifts it to every layout whose bars are placed as `ComputeLayout` ensures. Stated directly about `ComputeLayout(data, config)`, the product goal exceeds the verifier's resource limit.
- BarChart.Offsets: its own contract gives the count and the first offset; that each offset is the previous one plus that bar's width is stated by `OffsetsTile` and `XOffsets`.
- AdminQuestions.TextFor: its own contract says the text comes from an option with the key; that it is the last such option's is stated by `TextForLast`.
- `Object.entries` lists integer-like keys first in ascending order. The model keeps pure insertion order, which is what the code sees for non-numeric question ids.
