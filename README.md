# GreenConnect habit tracker — a Dafny model of its logic

GreenConnect is a single-page habit tracker: users log eco-friendly activities,
see summary statistics and a per-category chart, ask a generative-AI advisor for
a tip, and browse a mock community feed. Nearly all of it is markup. This project
models the parts that hold logic, and proves what they promise:

- **the activity-log store** (`AppContext`): a class with a `seq<Log>` field and the
  derived `Stats`. `AddLog` prepends, `DeleteLog` filters by id, and after every change
  the effect `RecomputeStats` re-derives the statistics. Three statistics are kept:
  the total impact, the number of logs, and the mocked streak (`0` if empty, else `3 + n / 5`).
  `Valid()` states that the statistics agree with the logs. `UseApp` fails without a provider;
- **the per-category aggregation** (`StatsChart`): one row per category in the
  enumeration's order, each with its summed impact and colour;
- **the log form** (`HabitLogPage`): the form state, the change handler, and the
  submit rule. A description that is blank after trimming shows an error. Otherwise
  exactly one entry goes to the store and the page navigates to `/`;
- **the community topic filter** (`Community`): covers the `topic` search parameter
  and the filtered feed. It also covers the tab labels, the placeholder and the draft
  message;
- **the advice service** (`GeminiService`): formats the logs into the prompt, and maps
  every failure of the model to one fixed sentence;
- **the dashboard** (`Dashboard`): the first 10 logs go to the advisor and the first 5
  are listed. The advice and the loading flag change around the request.

`Seqs`, `Strings` and `Wrappers` model the JavaScript built-ins involved (`filter`,
`slice`, `map`, `join`, `trim`, number-to-text, `Number(...)`,
`charAt(0).toUpperCase()`) and `null`/thrown errors. `Strings.Split` is not called
by the application. It is the inverse of `join`, and it is used to state what a
joined text contains.

### Schema

The code uses two log schemas. One has Spanish categories and the field `impact`
(src/context/AppContext.tsx:4-12). The other has the English `HabitCategory` enum and
the field `impactScore` (types.ts:1-15), used by the chart, the form and the dashboard.
The model has one schema: the English enumeration as `Habits.Category`, and an `int`
field `impact`. The two `INITIAL_LOGS` entries are mapped as follows:
- `'transporte'` becomes `Transport`;
- `'ahorro'` (reusable bags) becomes `Waste`.

The dashboard reads `stats.totalScore` and `stats.totalLogs`
(pages/Dashboard.tsx:35,44), but the store provides `totalImpact` and `completedHabits`.
The model uses the store's fields.

### Streak

One log gives a streak of `3 + floor(1 / 5) = 3` (src/context/AppContext.tsx:45).
`AppContext.ScenarioSingleLog` proves it.

### Parameters for what cannot be modelled

- Ids come from `Math.random` and dates from `new Date()`. Both are method parameters
  (`id` and `date`, and the constructor's `date1` and `date2`, the two
  timestamps `INITIAL_LOGS` takes when its module loads).
- The Gemini model call is a parameter `model: string -> ModelOutcome`: it maps the
  prompt to `Generated(text)` or `Failed`.
- React's `navigate` is recorded as the field `navigations`. The URL's search
  parameters are the field `searchParams`.

## Model

| member | source | states |
|---|---|---|
| Habits.AllCategoriesComplete | types.ts:1-7 | every category appears in the enumeration list |
| Habits.CategoryNameInjective | types.ts:1-7 | two categories have the same string value exactly when they are the same member |
| Habits.TotalImpact | src/context/AppContext.tsx:41 | the sum of no logs is 0 and the sum of one log is its impact |
| Habits.TotalImpactBounds | src/context/AppContext.tsx:41 | with every impact in the slider's range 1..10, the total lies between n and 10 n for n logs |
| Habits.TotalImpactConcat | src/context/AppContext.tsx:41 | the impact sum of a concatenation is the sum of the two sums |
| Habits.TotalImpactSplit | src/context/AppContext.tsx:41 | splitting the logs by a predicate and its negation splits the sum |
| Habits.TotalImpactPermutation | src/components/StatsChart.tsx:13-15 | the sum is the same for any reordering of the logs |
| AppContext.Streak | src/context/AppContext.tsx:45 | the streak is 0 exactly for no logs; otherwise it is 3 plus count / 5 |
| AppContext.StreakMonotone | src/context/AppContext.tsx:45 | more logs never give a smaller streak |
| AppContext.ComputeStats | src/context/AppContext.tsx:41-46 | the count is the number of logs and the total their impact sum; the streak is 0 exactly when the count is; impacts in 1..10 keep the total between the count and ten times it |
| AppContext.InitialLogs | src/context/AppContext.tsx:28-31 | two entries with distinct ids, each with its own timestamp; their statistics are total 13, count 2, streak 3 |
| AppContext.NewLog | src/context/AppContext.tsx:49-54 | the entry carries the caller's category, description and impact; the id and date are the generated ones |
| AppContext.WithoutId | src/context/AppContext.tsx:59 | the kept entries are no more than before, all from the old list, and none carries the id |
| AppContext.ActivityStore.constructor | src/context/AppContext.tsx:28-47 | the store starts with INITIAL_LOGS; once the effect has run, the statistics agree with them |
| AppContext.ActivityStore.RecomputeStats | src/context/AppContext.tsx:39-47 | the logs are unchanged and the statistics agree with them afterwards |
| AppContext.ActivityStore.AddLog | src/context/AppContext.tsx:49-56 | the new list is the new entry followed by the old list; the statistics agree with it |
| AppContext.ActivityStore.DeleteLog | src/context/AppContext.tsx:58-60 | the new list is the old list without the id's entries; the statistics agree with it |
| AppContext.UseApp | src/context/AppContext.tsx:69-73 | with a provider the result is its store; without one it is the missing-provider error, never a default |
| AppContext.AddLogPrepends | src/context/AppContext.tsx:55 | after adding, the length grows by one, the new entry is at index 0, and the old list follows unchanged |
| AppContext.AddLogStats | src/context/AppContext.tsx:41-46 | adding an entry adds its impact to the total and one to the count; the streak is that of the new count |
| AppContext.DeleteLogKeepsOthers | src/context/AppContext.tsx:59 | an entry is kept if and only if its id differs; each is kept as often as before; the result is a subsequence |
| AppContext.DeleteAbsentIsNoOp | src/context/AppContext.tsx:59 | deleting an id no entry carries leaves the list and the statistics unchanged |
| AppContext.DeleteLogStats | src/context/AppContext.tsx:41-59 | deleting takes out exactly the count and the impact of the entries with that id |
| AppContext.ScenarioSingleLog | src/context/AppContext.tsx:41-55 | one entry of impact 8 gives total 8, count 1 and streak 3 |
| AppContext.ScenarioFiveLogs | src/context/AppContext.tsx:41-45 | impacts 5, 8, 3, 7, 2 give total 25, count 5 and streak 4 |
| StatsChart.ChartData | src/components/StatsChart.tsx:12-21 | there are exactly five rows, named Transport, Food, Energy, Waste, Community in that order |
| StatsChart.CategoryScore | src/components/StatsChart.tsx:13-15 | a category no log has scores 0; when every log has the category, the score is the total impact |
| StatsChart.ChartRow | src/components/StatsChart.tsx:12-20 | row i is the i-th category; its score sums that category's impacts; its colour is COLORS[i % 5] |
| StatsChart.EmptyCategoryScoresZero | src/components/StatsChart.tsx:13-15 | a category with no logs scores 0 |
| StatsChart.ChartOrderIndependent | src/components/StatsChart.tsx:13-15 | reordering the logs does not change the rows |
| StatsChart.CategoryScoreCons | src/components/StatsChart.tsx:13-15 | a log adds its impact to its own category's score and nothing to the others |
| StatsChart.CategoryScoresSum | src/components/StatsChart.tsx:12-15 | the five category scores add up to the total impact |
| StatsChart.ChartSumsToTotal | src/components/StatsChart.tsx:12-21 | the scores of the rows add up to the total impact of all logs |
| Strings.TrimEmptyIffBlank | src/pages/HabitLog.tsx:23 | the trimmed description is empty exactly when every character is whitespace |
| Strings.IntToStringRoundTrip | src/pages/HabitLog.tsx:31 | `Number` of an integer's decimal text gives back the integer |
| Strings.SplitJoin | src/services/geminiService.ts:21 | splitting a join on its separator gives back the parts when no part contains the separator |
| HabitLogPage.SliderValue | src/pages/HabitLog.tsx:95-102 | the slider's value is always within [1, 10]; a position within the bounds is kept |
| HabitLogPage.ToNumber | src/pages/HabitLog.tsx:31 | the initial number reads as itself; a text reads as a decimal integer, and a text that reads as a number starts with a digit or a minus sign, the minus sign for negatives |
| HabitLogPage.IsBlank | src/pages/HabitLog.tsx:23 | a description is blank exactly when every character is whitespace |
| HabitLogPage.Submission | src/pages/HabitLog.tsx:19-35 | blank description: the fixed error; otherwise the untrimmed description, the category, and the impact read as a number in [1, 10] |
| HabitLogPage.ApplyChange | src/pages/HabitLog.tsx:37-40 | only the named field changes; a slider change stores a text that reads back as the slider's value, which is in [1, 10] |
| HabitLogPage.ChangeKeepsImpactInRange | src/pages/HabitLog.tsx:95-102 | every change keeps the impact field within the slider's bounds |
| HabitLogPage.InitialFormFails | src/pages/HabitLog.tsx:11-26 | the initial form has impact 5; submitting it unchanged gives the description error |
| HabitLogPage.HabitLogForm.constructor | src/pages/HabitLog.tsx:11-17 | the form starts as Food, an empty description and impact 5, with no error and no navigation |
| HabitLogPage.HabitLogForm.HandleChange | src/pages/HabitLog.tsx:37-40 | the form becomes the changed form; the error and the navigations are untouched |
| HabitLogPage.HabitLogForm.HandleSubmit | src/pages/HabitLog.tsx:19-35 | the error is cleared each time. A blank description sets the error; the store and navigations are unchanged. Otherwise one entry is prepended to the store and `/` is navigated to once |
| Community.CurrentTopic | src/pages/Community.tsx:17 | a missing or empty parameter means `'all'`; any other value is the topic |
| Community.ParamsFor | src/pages/Community.tsx:27 | `'all'` sets no parameter, and only `'all'` does; any other topic sets exactly the `topic` key to itself |
| Community.FilteredMessages | src/pages/Community.tsx:22-24 | `'all'` shows the whole list; any other topic shows no more messages than there are, each from the list and with that topic |
| Community.TabLabel | src/pages/Community.tsx:49 | the label has the topic's length; its first character is the topic's first upper-cased, so a lower-case letter becomes its own capital; the rest is unchanged |
| Community.Placeholder | src/pages/Community.tsx:107 | the placeholder names `general` for `'all'` and the topic otherwise |
| Community.TopicRoundTrip | src/pages/Community.tsx:26-28 | for any non-empty topic, reading back the parameters it sets gives it back; only `'all'` clears them |
| Community.TabsRoundTrip | src/pages/Community.tsx:39-42 | each of the four tabs round-trips through the search parameters |
| Community.FilterByTopic | src/pages/Community.tsx:22-24 | for a topic other than `'all'`, a message is shown exactly when it has that topic, as many times as it occurs; the original order is kept |
| Community.AllShowsEverything | src/pages/Community.tsx:17-23 | with no parameter every message is shown, in order |
| Community.UnknownTopicIsEmpty | src/pages/Community.tsx:60-63 | a topic that no mock message has shows an empty feed, so the empty state is shown |
| Community.MockTopics | src/pages/Community.tsx:6-12 | the mock feed holds two tips messages, two events messages and one general message |
| Community.TabLabels | src/pages/Community.tsx:49 | the tabs are labelled All, General, Tips, Events |
| Community.CommunityPage.constructor | src/pages/Community.tsx:16-19 | the page starts with the URL's parameters and an empty draft |
| Community.CommunityPage.HandleTopicChange | src/pages/Community.tsx:26-28 | the parameters become those of the topic; the page's topic is then the chosen one and the feed shows that topic's messages |
| Community.CommunityPage.EditDraft | src/pages/Community.tsx:106 | the draft becomes the typed text |
| Community.CommunityPage.Send | src/pages/Community.tsx:112 | send clears the draft and leaves the topic alone |
| GeminiService.FormatLog | src/services/geminiService.ts:21 | each log's line starts with the list marker |
| GeminiService.FormatLogSingleLine | src/services/geminiService.ts:21 | a log's line has no line break unless its description has one |
| GeminiService.LogsText | src/services/geminiService.ts:20-22 | the text is the fixed "No habits logged yet." exactly when there are no logs |
| GeminiService.LogsTextLines | src/services/geminiService.ts:21 | splitting the text at line breaks gives one line per log, in input order, when no description holds a line break |
| GeminiService.Prompt | src/services/geminiService.ts:24-32 | the prompt is the fixed head, then the logs' text unchanged, then the fixed tail |
| GeminiService.GetEcoAdvice | src/services/geminiService.ts:16-42 | a failed model call gives the fixed fallback sentence; a successful one gives the model's text |
| GeminiService.FailureNeverEscapes | src/services/geminiService.ts:38-41 | a model that always fails yields the fallback sentence |
| Dashboard.AdvisorBatch | pages/Dashboard.tsx:15 | the advisor gets the first min(10, n) logs, in store order |
| Dashboard.RecentActivity | pages/Dashboard.tsx:112-115 | no logs shows the empty-state text; otherwise the first min(5, n) logs are listed |
| Dashboard.ShownAdvice | pages/Dashboard.tsx:79-83 | advice is shown only once it is set and non-empty, and then it is shown as is |
| Dashboard.RecentWithinBatch | pages/Dashboard.tsx:115 | the listed logs are a prefix of the logs sent to the advisor |
| Dashboard.NewestFirst | pages/Dashboard.tsx:15 | a log just added is first both in the advisor's batch and in the list; the most recent earlier logs follow it |
| Dashboard.DashboardPage.constructor | pages/Dashboard.tsx:10-11 | there is no advice and no loading at first |
| Dashboard.DashboardPage.AdviceButtonDisabled | pages/Dashboard.tsx:87 | the advice button is disabled exactly while the loading flag is up: from the start of a request until its result is stored |
| Dashboard.DashboardPage.BeginAdviceRequest | pages/Dashboard.tsx:13-15 | the loading flag goes up, the old advice is kept, and the advisor batch is selected |
| Dashboard.DashboardPage.FinishAdviceRequest | pages/Dashboard.tsx:16-17 | the advice becomes the service's result and the loading flag goes down |
| Dashboard.DashboardPage.HandleGetAdvice | pages/Dashboard.tsx:13-18 | loading is on while waiting and off afterwards; the advice is what the service returns for the first 10 logs |

## Left out

- JSX rendering, CSS classes, icons, and the recharts `BarChart`: presentation and a foreign library.
- The Gemini client (`GoogleGenerativeAI`, `getGenerativeModel`, `generateContent`, `response.text()`): a foreign asynchronous network call, taken as the `model` parameter. The API-key configuration goes with it.
- `Math.random` ids, `new Date()` timestamps, and `toLocaleDateString`: nondeterministic host functions, taken as parameters. Ids are not assumed unique. `DeleteLog` removes every entry that carries the id.
- The render between a state change and its effect is not modelled. During that render the store's `stats` still hold the old values. The model runs the effect inside `AddLog`, `DeleteLog` and the constructor.
- `GetEcoAdvice` is a pure function of the model's outcome. `console.error` in its catch branch is left out.
- `HandleGetAdvice` is split at its `await` into two steps. Overlapping requests are not modelled. The source only disables the button while loading (`DashboardPage.AdviceButtonDisabled`).
- `alert`, `e.preventDefault()`, and the navigation itself (only the target is recorded): browser APIs.
- Search-parameter plumbing beyond the `topic` key. The Cancel button's `navigate('/')` (src/pages/HabitLog.tsx:113).
- The statistics cards of the dashboard are left out. Two of the three read fields the store does not provide (see Schema). The third shows `stats.streak` (pages/Dashboard.tsx:53), which `AppContext.Streak` models.
- components/Layout.tsx, src/App.tsx, src/index.tsx and src/types.ts are not part of this model. They are UI, routing and mount glue, and unused types.
- Strings.ToUpper: upper-cases ASCII letters only. JavaScript's `toUpperCase` also maps other letters, and can lengthen some (`ß` becomes `SS`). Tab topics are ASCII.
- Strings.IntToString: gives plain decimal digits. JavaScript switches to exponent notation from 1e21; impacts are 1 to 10.
- Strings.ParseInt: reads only an optional minus sign followed by digits. `Number` also accepts other forms and yields NaN or 0 for the rest. The slider only reports decimal integers.
- Strings: characters are Unicode scalar values, not UTF-16 code units.
- HabitLogPage.SliderValue: models the slider's value as its position clamped to `min`/`max`. The browser also rounds to the step of 1.
- Log impacts are unbounded integers. JavaScript numbers are doubles; a sum of small integers stays exact in them.
