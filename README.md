# Affirmation backend core, modelled in Dafny

This project models the small amount of sequential logic in a REST backend
for a personal-growth app. Users file a *problem*, an AI model writes
affirmations for it, and users log practice *sessions*. The model covers
three parts of that backend.

- **The AI service** (`AIService`). It builds the prompt for the full set of
  affirmations and solutions, and extracts the span from the first `{` to the
  last `}` of the model's reply. That span is decoded; when there is no span
  or decoding fails, the result is a fixed fallback set of 5 affirmations,
  3 solutions and 2 motivational statements. A failed model call is rethrown
  as `Failed to generate affirmations`. The personalised variant fills in the
  default tone and length, trims the reply, and answers a fixed sentence on
  failure.
- **Problem creation** (`ProblemController.createProblem`). It validates the
  request and defaults the inserted row (`severity || 5`,
  `is_public || false`). It flattens the AI reply into tagged entries, which
  are stored with the problem's id and shown without it. When generation
  throws, the reply is a canned ten-entry list.
- **Sessions** (`SessionController`). `createSession` validates the request
  and applies its defaults. `getSessionStats` computes the totals and mean
  moods and groups the sessions by day in a dictionary updated in place by a
  loop. The chart data is then sorted by day.

Modules:

- `Wrappers`: `Option` and `Result`.
- `Http`: a status and a body that is either `{ error }` or a payload.
- `Json`: JavaScript values, truthiness, `||`, property access, and the text a
  template literal substitutes for a value.
- `Text`: `indexOf`, `lastIndexOf`, `trim`, and the ordering of day keys.
- `AiService`, `ProblemController`, `SessionController`: one module per
  source file.

The store, the model client and `JSON.parse` are parameters of the model:

- The answer of a database call is an argument (a `Result` or a `bool`).
- The model call is a function from prompt to `Result<string, string>`.
- The decoder is a function from text to `Option<Json>`.

The regular expression `/\{[\s\S]*\}/` is specified independently by the
match a backtracking engine reports: the leftmost `{`, then the longest
extent. The implementation built from `indexOf`/`lastIndexOf` is proved to
find exactly that match. The grouping loop is a method with a `map` and an
insertion-order `seq`. It is proved against a fold (`Group`) and against
counting definitions (`CountFor`, `MinutesFor`, `DateKeys`). The
conservation of sessions and minutes is proved over that fold.

`generateAffirmations` does not fall back when the model call itself fails.
It rethrows `Failed to generate affirmations`
(`Backend/services/aiService.js:102-104`), and `createProblem` then answers
with its own canned list. `FailuresShowFallbackEntries` proves that the user
sees the same ten entries either way; only whether rows are stored differs.

## Model

| member | source | states |
|---|---|---|
| AiService.FullSetPrompt | Backend/services/aiService.js:10-61 | The template of the full-set prompt; what it shows is stated by `FullSetPromptShowsProblem`. |
| AiService.FullSetPromptShowsProblem | Backend/services/aiService.js:10-61 | The prompt contains the category, title, description and severity, each as its template text, on the labelled lines `- Category:` … `- Severity (1-10):`. |
| AiService.BraceSpan | Backend/services/aiService.js:72 | A found span starts with `{` and ends with `}`. That it is the regex's match is stated by `BraceSpanIsRegexMatch`. |
| AiService.BraceSpanIsRegexMatch | Backend/services/aiService.js:72 | A span is found iff some `}` lies after a `{`. A found span is a leftmost-longest match, and any leftmost-longest match `text[i..j]` is the span found. |
| AiService.EmbeddedObjectExtracted | Backend/services/aiService.js:72 | An object text between prose with no `{` before it and no `}` after it is extracted exactly. |
| AiService.NormalizeReply | Backend/services/aiService.js:70-100 | No brace match gives the fallback set. A match the decoder rejects gives the fallback set. A match it decodes gives the decoded value, unchanged. |
| AiService.GenerateAffirmations | Backend/services/aiService.js:4-106 | It fails iff the model call fails, and then with exactly `Failed to generate affirmations`. Otherwise the result is the normalised reply. |
| AiService.FallbackSetShape | Backend/services/aiService.js:83-99 | The fallback object holds the literal strings as `affirmations`, `solutions` and `motivational` arrays of 5, 3 and 2 entries. |
| AiService.ProseReplyYieldsFallback | Backend/services/aiService.js:72-100 | Any reply containing no `{` gives the fallback set, whatever the decoder does. |
| AiService.DecodedReplyNotPadded | Backend/services/aiService.js:74-76 | Any reply `before + obj + after`, with `obj` an object text, no `{` before it and no `}` after it, gives exactly what the decoder makes of `obj`. The arrays are not checked, padded to 5/3/2 or truncated. |
| AiService.PersonalizedPrompt | Backend/services/aiService.js:111-128 | The template of the single-affirmation prompt, with the destructuring defaults; what it shows is stated by `PersonalizedPromptShowsPreferences`. |
| AiService.PersonalizedPromptShowsPreferences | Backend/services/aiService.js:108-128 | The prompt shows the category, the description, and the given tone and length. An absent tone shows `encouraging` and an absent length shows `medium`. |
| AiService.GeneratePersonalizedAffirmation | Backend/services/aiService.js:108-137 | A failed call gives the fixed sentence. A successful call gives the reply with its JavaScript whitespace trimmed from both ends. |
| Text.Trim | Backend/services/aiService.js:132 | The result is a slice of the input with whitespace-only parts cut from both ends, and neither end of the result is whitespace. |
| Text.FirstIndex | Backend/services/aiService.js:72 | The result is the position of the first occurrence, or `None` iff the character is absent. |
| Text.LastIndex | Backend/services/aiService.js:72 | The result is the position of the last occurrence, or `None` iff the character is absent. |
| Json.ToText | Backend/services/aiService.js:14-17 | The `${…}` text of a value (`String(v)`); stated through the prompt lemmas `FullSetPromptShowsProblem` and `PersonalizedPromptShowsPreferences`, and for integers by `DecimalRoundTrip`. |
| Json.JoinItems | Backend/services/aiService.js:115-118 | The `${…}` text of an array: its items' texts joined by `,`, with `null` items as empty text; used by `ToText`. |
| Json.DecimalRoundTrip | Backend/services/aiService.js:17 | The decimal text of an integer severity in the prompt reads back as the same integer. |
| ProblemController.InsertRow | Backend/controllers/problemController.js:17-26 | The inserted problem row; its defaults are stated by `InsertRowDefaults`. |
| ProblemController.InsertRowDefaults | Backend/controllers/problemController.js:17-26 | A truthy `severity` or `is_public` is inserted as given. A falsy one, `0` included, becomes `5` and `false` respectively. |
| ProblemController.Tagged | Backend/controllers/problemController.js:89-91 | `map(content => ({content, type}))`: same length, and entry `i` is item `i` with the tag. |
| ProblemController.AiInput | Backend/controllers/problemController.js:50-55 | The object handed to the service: the join's category name, the request's title and description, the row's severity. `CreateProblem` and the outcome lemmas state what follows from the service's answer to it. |
| ProblemController.Arrays | Backend/controllers/problemController.js:60-76 | The three arrays `.map` needs, or `None` where `.map` throws a TypeError. Its outcomes are stated by `Flatten`, `StoredRows` and `UnmappableReplyShowsFallbackEntries`. |
| ProblemController.Flatten | Backend/controllers/problemController.js:88-92 | The displayed list exists iff all three fields are arrays. Its length is the sum of their lengths. It holds affirmations tagged `positive`, then solutions tagged `solution`, then motivational statements tagged `motivational`, each group in order. |
| ProblemController.StoredRows | Backend/controllers/problemController.js:60-76 | The stored rows exist iff all three fields are arrays, and every stored row carries the problem's id. |
| ProblemController.DisplayedIsStoredWithoutId | Backend/controllers/problemController.js:60-92 | The displayed list is exactly the stored list with `problem_id` removed. |
| ProblemController.FallbackEntriesFlattenFallbackSet | Backend/controllers/problemController.js:103-114 | The controller's ten canned entries are the flattening of the service's fallback set: 5 `positive`, 3 `solution`, 2 `motivational`. |
| ProblemController.CreateProblem | Backend/controllers/problemController.js:5-120 | A falsy category, title or description gives 400 with the required-fields message, and nothing is inserted. Otherwise the defaulted row is always inserted, and an insert error gives 400 with its message and stores nothing. After a successful insert the reply is 201 with the inserted problem. A `null` category join shows the canned list and stores nothing. Otherwise nothing is stored exactly when the service fails or its reply lacks one of the three arrays, and then the canned list is shown. When the reply has the arrays, the rows stored are those arrays under the new id, and the reply shows them without it. |
| ProblemController.AfterInsert | Backend/controllers/problemController.js:41-120 | The AI branch after the insert, with every TypeError and service error routed to the canned list. Its outcomes are stated by `CreateProblem`, `FailuresShowFallbackEntries`, `NullCategoryShowsFallbackEntries`, `UnmappableReplyShowsFallbackEntries` and `ServiceArraysShownAndStored`. |
| ProblemController.FailuresShowFallbackEntries | Backend/controllers/problemController.js:99-119 | A failed model call and an undecodable reply both give a 201 showing the ten canned entries. Nothing is stored exactly when the call failed. |
| ProblemController.NullCategoryShowsFallbackEntries | Backend/controllers/problemController.js:42-55 | A `null` category join answers 201 with the canned list and stores nothing. |
| ProblemController.UnmappableReplyShowsFallbackEntries | Backend/controllers/problemController.js:59-119 | A decoded reply lacking one of the three arrays answers 201 with the canned list and stores nothing. |
| ProblemController.ServiceArraysShownAndStored | Backend/controllers/problemController.js:59-97 | When the service returns three arrays, they are stored under the problem's id and shown flattened. |
| SessionController.CreateSession | Backend/controllers/sessionController.js:4-65 | A falsy `problem_id` gives 400 `Problem ID is required` before any lookup. An unowned problem gives 404. Otherwise the insert uses `[]` and `0` for absent practice and duration, keeps the other fields, and answers 201 with the session or 400 with the insert error. |
| SessionController.Minutes | Backend/controllers/sessionController.js:143 | `duration_minutes`, with a falsy value read as 0; summed by `TotalMinutes` and bucketed by `AddRecordTouchesOneBucket`. |
| SessionController.MoodBefore | Backend/controllers/sessionController.js:129 | `mood_before`, with a falsy value read as 0; its sum is the numerator of `MeanOf` in `SessionStats`. |
| SessionController.MoodAfter | Backend/controllers/sessionController.js:132 | `mood_after`, with a falsy value read as 0; its sum is the numerator of `MeanOf` in `SessionStats`. |
| SessionController.SumOf | Backend/controllers/sessionController.js:127-133 | The `reduce` sum with missing values as 0; what it totals is stated by `SessionStats`, `GroupMeaning` and `GroupConserves`. |
| SessionController.TotalMinutes | Backend/controllers/sessionController.js:127 | `totalMinutes`; `GroupConserves` proves the per-day minutes add up to it. |
| SessionController.Average | Backend/controllers/sessionController.js:128-133 | The mean is 0 for no sessions; otherwise mean × count equals the sum. |
| SessionController.DateKey | Backend/controllers/sessionController.js:138 | The key is the prefix of the timestamp before its first `T` (the whole timestamp if it has none), and it contains no `T`. |
| SessionController.AddRecord | Backend/controllers/sessionController.js:137-144 | One pass of the `forEach` body; stated by `AddRecordTouchesOneBucket`. |
| SessionController.Group | Backend/controllers/sessionController.js:136-144 | The dictionary after the `forEach`; stated by `GroupMeaning` and `GroupConserves`, and equal to what `GroupByDate` computes. |
| SessionController.AddRecordTouchesOneBucket | Backend/controllers/sessionController.js:137-144 | One record adds its day's bucket if new, increments that bucket's count by one and its minutes by the record's minutes, and leaves every other bucket unchanged. |
| SessionController.GroupMeaning | Backend/controllers/sessionController.js:136-144 | After all records, the keys are exactly the days present, each listed once, and each bucket holds that day's session count and minutes. |
| SessionController.GroupConserves | Backend/controllers/sessionController.js:136-144 | The per-day counts sum to the number of sessions, and the per-day minutes sum to the total minutes. |
| SessionController.GroupByDate | Backend/controllers/sessionController.js:136-144 | The loop's dictionary equals the fold. Its keys are the days present, each bucket counts that day's sessions and minutes, and the insertion order lists each key once. |
| SessionController.Entries | Backend/controllers/sessionController.js:146-149 | `Object.entries(...).map(...)`: one chart entry per key, in insertion order, carrying the bucket's count and minutes. |
| SessionController.EntriesListBuckets | Backend/controllers/sessionController.js:146-149 | The unsorted chart entries have distinct days, exactly the dictionary's keys, each with its bucket's values. |
| SessionController.SortByDate | Backend/controllers/sessionController.js:150 | The result has the same length and members as the input, so with distinct days it is a permutation. It is strictly ascending by day and keeps both sums. |
| SessionController.AscendingIsUnique | Backend/controllers/sessionController.js:150 | Two strictly ascending lists with the same members are equal, so the chart data does not depend on the dictionary's order or on the sort algorithm. |
| Text.LexLessTotal | Backend/controllers/sessionController.js:150 | Distinct day keys are always ordered one way or the other. |
| Text.LexLessTransitive | Backend/controllers/sessionController.js:150 | The day order is transitive. |
| Text.LexLessIrreflexive | Backend/controllers/sessionController.js:150 | No day key sorts before itself. |
| SessionController.SessionStats | Backend/controllers/sessionController.js:125-150 | The totals are the count of sessions and the sum of minutes (missing counted as 0), and both mean moods are means of their sums. The chart data is strictly ascending and has one entry per day present, with that day's count and minutes. Chart counts sum to the total sessions and chart minutes to the total minutes. |
| SessionController.GetSessionStats | Backend/controllers/sessionController.js:106-159 | A fetch error gives 400 with its message. Otherwise the reply is 200 with every fact `SessionStats` states of the fetched rows: the totals, both means, the ascending chart data with each day's count and minutes, and conservation. |

## Left out

- The database is not modelled: inserts, selects, ownership filters, pagination and ordering. What a call returns is an argument. Whether the affirmation insert succeeded is not an input, because `createProblem` only logs that error.
- The Gemini client, its configuration and the network call are not modelled. The call is a function from prompt to text or failure, assumed to give the same answer for the same prompt.
- The internals of `JSON.parse` are not modelled. Decoding is an arbitrary partial function, and decoded numbers are integers only.
- `console.log`/`console.error`, `async`/`await`, and the 500 replies of the outer `catch` blocks are left out. Those replies arise only from exceptions the database or the request object would throw.
- `getSessionStats` rounds the means to one decimal (`Math.round(x * 10) / 10`) and computes `moodImprovement`. Neither is modelled: the means are exact rationals, because floating point is not modelled.
- The `days` query parameter and the `startDate` clock arithmetic are not modelled: the fetched rows are an argument.
- DateKey: `new Date(ts).toISOString()` is not modelled. A timestamp is taken to be in ISO form already, so time-zone normalisation and invalid dates are not captured.
- SortByDate: the comparator `new Date(a.date) - new Date(b.date)` is modelled as lexicographic order on day keys. The two agree on `YYYY-MM-DD` keys but not on malformed ones. The order of `Object.entries` for integer-like keys is not modelled either; by `AscendingIsUnique` it does not affect the sorted chart data.
- `generatePersonalizedAffirmation` with `userPreferences` explicitly `null` is not modelled. That input throws a TypeError that the code turns into the fixed sentence; the model covers only absent or present preference fields.
- A problem record whose joined category is `null` makes `createProblem` answer with the canned list (a TypeError caught as an AI failure). This is modelled as `ProblemRecord.category == None`; a category object without a `name` is not distinguished from one with it.
- `getUserProblems`, `getUserSessions`, `updateSession` and the other CRUD handlers are not modelled. Backend/controllers/authController.js, Backend/controllers/affirmationController.js and the route tables under Backend/routes are not part of this model. They hold no logic beyond database and HTTP glue.
