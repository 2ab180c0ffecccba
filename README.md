# Diet back end: the meal-log, profile/diet-plan and AI-adjustment routes

This project models, in Dafny, the three route modules of a FastAPI back end
for diet tracking that hold real logic, and proves properties of the model.

- **`log_meal` and `check_missing_meals`.** `log_meal` files one meal under
  `users/{uid}/dietLog/{year}/{month}/{day}/meals/{category}` as a full
  replace. `check_missing_meals` walks the `users` collection. For each user,
  it writes a zero-valued placeholder for every category of the fixed
  schedule (Breakfast, Lunch, Dinner, Snacks) that has no document today.
- **`add_data` and `add_dietplan`.** `add_data` builds a profile with
  defaults and replaces the user document with it. `add_dietplan` checks each
  day plan and its meals with Python truthiness. It writes each day as soon as
  that day passes, so days before the first bad one stay written.
- **`ai_adjustment`.** It keeps one conversation memory per user. It reads the
  profile, the diet plan, today's previous adjustment and seven days of meal
  logs (today, then the six days before it). It saves turns to memory and asks
  the generative model. It strips code fences from the answer and parses it
  as JSON. The result is stored under `aiAdjustment/{YYYY-MM-DD}`. Every
  failure past the session check becomes one generic 500.

The document store is a class holding a map from key paths to documents
(`Firestore.DocumentStore`). `Set` is a full replace. A collection streams its
documents in ascending id order. Request bodies and documents are maps to a
`Value` type with Python's truthiness.

Dates are proleptic Gregorian dates from 0001-01-01 to 9999-12-31, and the
day before 0001-01-01 does not exist, as in Python's `datetime`. Their path
segments are `str(year)` followed by a two-digit month and a two-digit day.
Their document key is the `full-date` form of section 5.6 of RFC 3339.

The following are parameters:
- The clock: `now`/`today` is a date, and timestamps are opaque values.
  Where a handler reads `datetime.now` again for each write, the readings
  are a function `clock` from the reading's number to a value.
- The generative model: `generate` maps a history and a prompt to no
  candidates, a text, or a failed call.
- `json.loads`: `parse` maps a text to a JSON value or nothing. It is
  constrained only by `JsonLoadsContract`: nothing it accepts may fail to
  begin like a JSON text.

Files:
- `wrappers.dfy`: Option.
- `py_value.dfy`: values and truthiness.
- `py_str.dfy`: `strip`, `startswith`, `endswith`.
- `id_order.dfy`: the id order of a stream.
- `firestore.dfy`: the store.
- `calendar.dfy`: dates, `timedelta` steps, date text.
- `api.dfy`: session check, responses, paths.
- `logmeal.dfy`, `user_routes.dfy`, `ai_adjustment.dfy`: the three route modules.

Behaviour of the code worth noting:
- **Diet-plan writes are per day, not all-or-nothing.** A rejected day leaves
  the earlier days written (`UserRoutes.DietPlanPartialWrites`).
- **The memory sentinel is not a first-use-only turn.** The code saves it
  whenever the memory's variables lack a `static_context_saved` key, which
  depends on the conversation library. The model takes that test as an
  opaque boolean.
- **A parsed answer that is not a JSON object is also a generic 500.** It
  cannot be stored as a document, so the outer handler catches the failure.
- **The inner "Failed to parse" 500 never reaches the caller.** The outer
  `except Exception` replaces it with the generic one.

## Model

| member | source | states |
|---|---|---|
| PyValue.FalsyExactly | routers/user/route.py:61-87 | `bool(v)` (`PyValue.IsTruthy`) is false exactly for None, False, 0, 0.0, "", [] and {} |
| Api.SignedInIsTruthy | routers/logmeal/route.py:50-52 | the session check is `if not user_id` on the uid, a missing uid being None |
| Api.MealPath | routers/logmeal/route.py:74-82 | a meal document's path has eight segments and ends with its category |
| Api.MealPathInjective | routers/logmeal/route.py:74-82 | two meal paths are equal only for the same user, date and category |
| Calendar.Prev | routers/ai_adjustment/route.py:76 | the day before exists exactly when the date is not 0001-01-01; it is valid and earlier |
| Calendar.Next | routers/ai_adjustment/route.py:76 | the day after exists exactly when the date is not 9999-12-31; it is valid and later |
| Calendar.NextOfPrev | routers/ai_adjustment/route.py:76 | stepping back one day and then forward one day returns the date |
| Calendar.PrevOfNext | routers/ai_adjustment/route.py:76 | stepping forward one day and then back one day returns the date |
| Calendar.PrevIsImmediate | routers/ai_adjustment/route.py:76 | no valid date lies strictly between a date and the day before it |
| Calendar.OrdinalPositive | routers/ai_adjustment/route.py:76 | day numbers start at 1 on 0001-01-01 and are at most 6 only for the first six days of year 1 |
| Calendar.PrevOrdinal | routers/ai_adjustment/route.py:76 | the day before has the day number one less |
| Calendar.DecemberStart | routers/ai_adjustment/route.py:76 | the days before December plus 31 are the days of the year, in leap and common years |
| Calendar.PrevExists | routers/ai_adjustment/route.py:76 | the day before exists exactly when the day number exceeds 1 |
| Calendar.DaysBack | routers/ai_adjustment/route.py:76 | `now - timedelta(days=n)` yields a valid date whenever it yields one |
| Calendar.DaysBackOrdinal | routers/ai_adjustment/route.py:76 | going n days back succeeds exactly when n is below the day number, landing n day numbers earlier |
| Calendar.NatToString | routers/ai_adjustment/route.py:48 | `str(n)` is a non-empty string of digits with no leading zero, of at most 4 digits below 10000 |
| Calendar.ZFill | routers/ai_adjustment/route.py:49-50 | `zfill(w)` keeps a string of digits that is long enough and otherwise pads it to exactly w digits |
| Calendar.NatToStringValue | routers/ai_adjustment/route.py:48 | the decimal text of n reads back as n |
| Calendar.ZFillValue | routers/ai_adjustment/route.py:49-50 | zero padding does not change the value the digits denote |
| Calendar.DatePath | routers/ai_adjustment/route.py:48-50 | a day's path is three non-empty strings of digits; the month and the day have two digits each |
| Calendar.DatePathRoundTrip | routers/ai_adjustment/route.py:48-50 | a day's path is an unpadded year without leading zero, a 2-digit month and a 2-digit day, and the date reads back from it |
| Calendar.DatePathInjective | routers/logmeal/route.py:21-23 | distinct dates have distinct path segments |
| Calendar.DateKeyRoundTrip | routers/ai_adjustment/route.py:63 | the adjustment key is ten characters, digits with '-' at positions 4 and 7, and the date reads back from it |
| Calendar.DateKey | routers/ai_adjustment/route.py:63 | the adjustment key is ten characters with '-' at positions 4 and 7 |
| IdOrder.LeTotal | routers/logmeal/route.py:25 | any two ids are ordered one way or the other |
| IdOrder.LeAntisymmetric | routers/logmeal/route.py:25 | ids ordered both ways are equal |
| IdOrder.LeTransitive | routers/logmeal/route.py:25 | the id order is transitive |
| IdOrder.LeastExists | routers/logmeal/route.py:25 | a non-empty set of ids has a least id |
| IdOrder.LeastUnique | routers/logmeal/route.py:25 | the least id is unique |
| IdOrder.Sorted | routers/logmeal/route.py:25 | the stream order of a set of ids lists each of its ids exactly once, strictly ascending |
| IdOrder.SortedUnfold | routers/logmeal/route.py:25 | the stream order starts with the least id, followed by the stream order of the rest |
| Firestore.ChildIds | routers/logmeal/route.py:31 | an id belongs to a collection exactly when a document sits at the collection's path plus that id |
| Firestore.DocsOf | routers/ai_adjustment/route.py:69-72 | the documents for a list of ids come in that list's order, one per id |
| Firestore.Listing | routers/ai_adjustment/route.py:69-72 | a collection's stream yields one document per id |
| Firestore.ChildMap | routers/ai_adjustment/route.py:40-41 | `{doc.id: doc.to_dict()}` has the collection's ids as keys, each mapped to its own document |
| Firestore.DocumentStore.Get | routers/ai_adjustment/route.py:38 | a read yields the stored document, or None when there is none |
| Firestore.DocumentStore.Set | routers/logmeal/route.py:85 | a write replaces the whole document at its path and changes nothing else |
| Firestore.DocumentStore.ListIds | routers/logmeal/route.py:25-27 | the ids of a collection in stream order |
| Firestore.DocumentStore.Stream | routers/ai_adjustment/route.py:69-72 | the loop over a stream collects exactly the collection's documents in ascending id order |
| Firestore.SortIds | routers/logmeal/route.py:25 | taking the least remaining id one at a time lists a set in stream order |
| LogMeal.Users | routers/logmeal/route.py:25-27 | the scan's users are exactly the ids with a document in `users` |
| LogMeal.Placeholder | routers/logmeal/route.py:38-44 | a placeholder has exactly the five fields, names its category, and carries the clock reading taken for its write |
| LogMeal.PlaceholderShape | routers/logmeal/route.py:38-44 | a placeholder names its category as meal and category, has 0 calories and zero carbs, protein and fats, is stamped, and has no `ingredients` |
| LogMeal.MissingMeals | routers/logmeal/route.py:31-34 | a category is missing exactly when it is scheduled and today's `meals` has no document with its id |
| LogMeal.Backfilled | routers/logmeal/route.py:25-44 | after a scan the store's paths are those before plus every scheduled slot of every user on the day |
| LogMeal.BackfillKeepsExisting | routers/logmeal/route.py:31-38 | a scan rewrites and removes nothing: logged meals, other dates and other collections keep their documents |
| LogMeal.BackfillAddsExactlyMissing | routers/logmeal/route.py:34-44 | a scan adds a document at a meal path exactly when its user exists and its category is missing, and that document is the category's placeholder |
| LogMeal.BackfillOnlyToday | routers/logmeal/route.py:28-38 | every new document sits at a scheduled category of an existing user on the scan's day |
| LogMeal.BackfillKeepsUsers | routers/logmeal/route.py:25-26 | a scan leaves the set of users unchanged |
| LogMeal.BackfillComplete | routers/logmeal/route.py:26-44 | after a scan, no user is missing any scheduled category for the day |
| LogMeal.BackfillIdempotent | routers/logmeal/route.py:18-46 | a second scan of the same day writes nothing, whatever its clock readings |
| LogMeal.BackfillStampsOnly | routers/logmeal/route.py:36-44 | two scans that differ only in the clock reading each placeholder gets fill the same paths, with documents equal except for `logged_at` |
| LogMeal.InSlots | routers/logmeal/route.py:26-38 | a meal path is one the scan may fill exactly when its user is listed and its category scheduled |
| LogMeal.CheckMissingMeals | routers/logmeal/route.py:18-46 | the scan loop over users answers success and leaves the store backfilled for the day; it writes each missing slot once, and the k-th write is stamped with the k-th clock reading |
| LogMeal.BackfillUser | routers/logmeal/route.py:27-44 | one user's turn fills exactly that user's missing categories, adding the user to those done and each write to the write order |
| LogMeal.WritePlaceholders | routers/logmeal/route.py:36-44 | the missing categories are written in whatever order the set yields, each once; each one's placeholder is added, stamped with the clock reading taken for that write |
| LogMeal.LogMealUnauthorized | routers/logmeal/route.py:50-52 | without a uid the answer is 401 and the store is unchanged, whatever the body holds |
| LogMeal.MealRecord | routers/logmeal/route.py:58-65 | the record has exactly the six fields, and `logged_at` is the clock reading |
| LogMeal.LogMealResult | routers/logmeal/route.py:50-85 | success exactly when signed in; then the only path that may be added is today's slot for the category |
| LogMeal.LogMealReadBack | routers/logmeal/route.py:58-85 | a logged meal reads back from today's slot of its category as its record; every other document is untouched |
| LogMeal.MealRecordFields | routers/logmeal/route.py:58-65 | the record copies the four meal fields as sent (None when absent), defaults `ingredients` to [], stamps `logged_at`, and has no other field |
| LogMeal.LogMealLastWins | routers/logmeal/route.py:74-85 | a second meal logged in the same category on the same day replaces the first |
| LogMeal.LogMealRoute | routers/logmeal/route.py:48-87 | the route answers and writes as `LogMealResult` says |
| UserRoutes.Profile | routers/user/route.py:24-38 | the profile has exactly the eight copied fields, the three list fields, `meal_frequency` and `created_at` |
| UserRoutes.ProfileCopiesMeasures | routers/user/route.py:25-28 | name, age, weight and height are copied as sent, None when absent |
| UserRoutes.ProfileCopiesPreferences | routers/user/route.py:29-32 | gender, dietary preferences, goals and activity level are copied as sent, None when absent |
| UserRoutes.ProfileDefaults | routers/user/route.py:33-37 | the three list fields default to [], `meal_frequency` to 3, and `created_at` is the stamp |
| UserRoutes.AddDataResult | routers/user/route.py:14-42 | success exactly when signed in; then the user's document is the only path that may be added |
| UserRoutes.AddDataReplaces | routers/user/route.py:14-42 | without a uid: 401 and no write; with one, the profile replaces the user document whole and nothing else changes |
| UserRoutes.AddDataRoute | routers/user/route.py:12-43 | the route answers and writes as `AddDataResult` says |
| UserRoutes.MealOk | routers/user/route.py:82-83 | a passing meal is a dict holding `type`, `calories` and `nutrients` |
| UserRoutes.MealError | routers/user/route.py:83-87 | a failing meal answers the meal-fields 400 exactly when it is a dict, and the 500 otherwise |
| UserRoutes.MealsVerdict | routers/user/route.py:82-87 | no answer exactly when the meal plan is a list of passing meals; otherwise the 400 meal-fields answer, or a 500 for a value of the wrong type |
| UserRoutes.CheckDay | routers/user/route.py:65-87 | an accepted day has a non-empty name, a truthy target and split, and a list of meals; a rejected one answers a 400 or the 500 |
| UserRoutes.FirstBadMeal | routers/user/route.py:82-87 | every meal before the index passes, and the meal at the index fails |
| UserRoutes.ValidateMeals | routers/user/route.py:82-87 | the meal loop yields the first failing meal's answer, and yields none exactly when the plan is a list of passing meals |
| UserRoutes.ValidateDay | routers/user/route.py:65-87 | the day checks run in the handler's order and give the `CheckDay` verdict |
| UserRoutes.CheckDayAccepts | routers/user/route.py:65-87 | a day is accepted exactly when it has a non-empty string `day`, a truthy target and split, and a non-empty list of passing meals; it then keeps those values |
| UserRoutes.ZeroCaloriesRejected | routers/user/route.py:66-87 | a meal with `calories: 0` gets its day rejected; with only dict meals before it the answer is a 400, and the meal-fields 400 once the day-level fields pass |
| UserRoutes.RejectionIsError | routers/user/route.py:66-87 | a rejected day answers the day-name, day-fields or meal-fields 400, or the 500 for a value of the wrong type |
| UserRoutes.DayNameRejected | routers/user/route.py:66-68 | a day plan with a falsy `day` is refused with 400 "Day name is required for each day plan" |
| UserRoutes.DayFieldsRejected | routers/user/route.py:71-79 | a named day plan with a falsy target, split or meal plan is refused with the day-fields 400 |
| UserRoutes.MealFieldsRejected | routers/user/route.py:82-87 | in a day plan that passes the day-level checks, a first failing meal that is a dict gets the meal-fields 400 |
| UserRoutes.FirstRejected | routers/user/route.py:65-79 | every verdict before the index accepts, and the one at the index rejects |
| UserRoutes.DayDoc | routers/user/route.py:91-96 | a day's document has exactly the four fields and carries the clock reading taken for it |
| UserRoutes.StoreDaysFrame | routers/user/route.py:89-99 | a path no accepted day names keeps its document, or stays absent |
| UserRoutes.StoreDaysLastWins | routers/user/route.py:89-99 | a day's path holds the document of the last day with that name, stamped with that day's clock reading, with exactly the four day-plan keys |
| UserRoutes.StoreDays | routers/user/route.py:89-99 | the writes remove nothing, and every accepted day's path holds a document after them |
| UserRoutes.WriteDaysSucceeds | routers/user/route.py:65-101 | the day loop succeeds exactly when every day is accepted, and then it has written them all |
| UserRoutes.WriteDaysStopsAt | routers/user/route.py:65-99 | at the first rejected day the loop answers with its rejection; the store is exactly the one the earlier days' writes leave, so that day and later ones add nothing |
| UserRoutes.WriteDaysFrame | routers/user/route.py:89-99 | the day loop writes only inside the caller's `dietPlan` collection |
| UserRoutes.WriteDays | routers/user/route.py:65-99 | the day loop removes nothing, and answers success or the answer of one of the rejected days |
| UserRoutes.AddDietPlanRoute | routers/user/route.py:48-101 | the route answers and writes as `DietPlanResult` says, day by day |
| UserRoutes.DietPlanResult | routers/user/route.py:54-101 | the route removes nothing, and succeeds only for a signed-in caller |
| UserRoutes.DietPlanRequired | routers/user/route.py:61-63 | a missing or falsy `weeklyDietPlan` is refused with 400 and nothing is written |
| UserRoutes.DietPlanSucceeds | routers/user/route.py:61-101 | success exactly when signed in with a non-empty list of day plans that all pass; then every day is written |
| UserRoutes.DietPlanFrame | routers/user/route.py:58-99 | the route creates or changes documents only in the caller's `dietPlan` collection |
| UserRoutes.DietPlanPartialWrites | routers/user/route.py:65-99 | when day k is the first rejected one: that rejection is the answer, and the store is exactly the one the writes of days 0 to k-1 leave; nothing else changes |
| PyStr.Strip | routers/ai_adjustment/route.py:144 | `strip()` never lengthens a text |
| PyStr.LStripShape | routers/ai_adjustment/route.py:159 | `lstrip` (`PyStr.LStrip`) keeps a suffix that does not start with whitespace and drops only whitespace |
| PyStr.RStripShape | routers/ai_adjustment/route.py:159 | `rstrip` (`PyStr.RStrip`) keeps a prefix that does not end with whitespace and drops only whitespace |
| PyStr.StripShape | routers/ai_adjustment/route.py:159 | `strip` keeps a slice with no whitespace at either end and drops only whitespace around it |
| PyStr.StripIdempotent | routers/ai_adjustment/route.py:144 | stripping twice is stripping once |
| PyStr.StripNoop | routers/ai_adjustment/route.py:159 | a text with no whitespace at either end is left as it is |
| AiAdjustment.WindowPrefix | routers/ai_adjustment/route.py:75-79 | the first n window dates are valid, date i is i days back, and there are none only if some date falls before the calendar |
| AiAdjustment.Window | routers/ai_adjustment/route.py:75-79 | seven dates starting with today; none exactly when a date up to six days back falls before the calendar |
| AiAdjustment.WindowShape | routers/ai_adjustment/route.py:75-79 | the window is seven dates: today, then each the day before the previous one, all distinct with distinct paths |
| AiAdjustment.WindowExists | routers/ai_adjustment/route.py:76 | the window exists unless today is one of the first six days of year 1 |
| AiAdjustment.WindowGone | routers/ai_adjustment/route.py:76 | a window date before the calendar leaves no window |
| AiAdjustment.ConcatFront | routers/ai_adjustment/route.py:69-92 | the first day's documents come first, followed by the other days' documents in order |
| AiAdjustment.ConcatLength | routers/ai_adjustment/route.py:69-92 | the collected list is as long as all days together |
| AiAdjustment.ConcatEmpty | routers/ai_adjustment/route.py:69-92 | the collected list is empty exactly when every day is |
| AiAdjustment.DayListings | routers/ai_adjustment/route.py:69-92 | one listing per window day, each as long as that day's `meals` collection |
| AiAdjustment.MealLogs | routers/ai_adjustment/route.py:69-92 | the logs of a list of days are as long as all their listings together |
| AiAdjustment.WindowLogsOrder | routers/ai_adjustment/route.py:69-92 | the logs are today's documents followed by yesterday's through six days ago, in order |
| AiAdjustment.WindowLogsCount | routers/ai_adjustment/route.py:45-95 | the logs hold the sum of the per-day counts and are empty exactly when no window day has a meal document |
| AiAdjustment.WindowLogs | routers/ai_adjustment/route.py:45-92 | the logs exist exactly when the seven-day window does |
| AiAdjustment.MealLogsSnoc | routers/ai_adjustment/route.py:89-92 | adding a day to the window appends that day's stream to the logs |
| AiAdjustment.CollectMealLogs | routers/ai_adjustment/route.py:69-92 | the two nested append loops collect exactly the window's logs, and fail when a date leaves the calendar |
| AiAdjustment.StripFences | routers/ai_adjustment/route.py:152-159 | the stripped answer is no longer than the output and has no whitespace at either end |
| AiAdjustment.StripFencesBoth | routers/ai_adjustment/route.py:152-159 | a text fenced by "```json" and "```" loses exactly the two fences, then is trimmed |
| AiAdjustment.StripFencesLeadingOnly | routers/ai_adjustment/route.py:152-159 | a leading "```json" without a trailing fence is still removed |
| AiAdjustment.StripFencesNone | routers/ai_adjustment/route.py:152-159 | a text with neither fence is only trimmed |
| AiAdjustment.SkipJsonSpace | routers/ai_adjustment/route.py:160 | skipping JSON whitespace leaves a suffix that does not begin with it |
| AiAdjustment.FallbackUnfenced | routers/ai_adjustment/route.py:146-159 | fence stripping and trimming leave the fallback text whole |
| AiAdjustment.FallbackNotJson | routers/ai_adjustment/route.py:160 | the fallback text cannot begin a JSON text |
| AiAdjustment.FallbackNeverParses | routers/ai_adjustment/route.py:143-160 | with no candidates, `json.loads` is handed the fallback and rejects it |
| AiAdjustment.Lookup | routers/ai_adjustment/route.py:66 | `get().to_dict()` is a document exactly when one is stored at the path |
| AiAdjustment.Admit | routers/ai_adjustment/route.py:29-30 | after the first-use check the caller has a memory entry |
| AiAdjustment.PreTurns | routers/ai_adjustment/route.py:121-125 | one turn when the sentinel is known saved, two otherwise, ending with the plan-and-logs turn with empty output |
| AiAdjustment.OutputText | routers/ai_adjustment/route.py:143-146 | with no candidates the output is the fallback text; otherwise it is the candidate trimmed, no longer than it |
| AiAdjustment.Success | routers/ai_adjustment/route.py:166 | the success body holds exactly `status: "success"` and the adjustment |
| AiAdjustment.Answer | routers/ai_adjustment/route.py:140-166 | there is a document to store exactly on success; the answer is success or the generic 500; one turn is added unless the call fails |
| AiAdjustment.AnswerTurns | routers/ai_adjustment/route.py:140-149 | after the reply the turns gain the prompt and output unless the call failed, and a failed call is the generic 500 |
| AiAdjustment.Conversation | routers/ai_adjustment/route.py:120-166 | there is a document to store exactly on success; the answer is success or the generic 500; the caller's turns grow |
| AiAdjustment.AnswerOutcome | routers/ai_adjustment/route.py:142-166 | after the model replies: the generic 500 with nothing to store, or success with the parsed object to store |
| AiAdjustment.AnswerFallback | routers/ai_adjustment/route.py:143-164 | with no candidates, the fallback is saved as the output and the answer is the generic 500 |
| AiAdjustment.ConversationExtends | routers/ai_adjustment/route.py:121-149 | the conversation only appends to the user's turns |
| AiAdjustment.AdjustWithOutcome | routers/ai_adjustment/route.py:37-171 | past the session check every error is the generic 500 with the store untouched; a success writes exactly the returned object at the key |
| AiAdjustment.Read | routers/ai_adjustment/route.py:38-92 | the reads succeed exactly when the profile and the window exist; the profile is the stored user document, and the last adjustment is present exactly when stored at today's key |
| AiAdjustment.AdjustWith | routers/ai_adjustment/route.py:33-171 | the answer is success or the generic 500; failed reads change nothing; only the adjustment key may be added |
| AiAdjustment.Adjust | routers/ai_adjustment/route.py:17-171 | the answer is success, the generic 500 or the 401; only the caller's adjustment key for today may be added |
| AiAdjustment.AdjustWithMemory | routers/ai_adjustment/route.py:121-149 | past the session check only the caller's turns change, and only by appending |
| AiAdjustment.AdjustWithTurns | routers/ai_adjustment/route.py:121-149 | the turns appended are: the sentinel unless known saved; plan and logs; then the prompt and output unless the call fails. The model sees the plan-and-logs turn, and a failed call is the generic 500 |
| AiAdjustment.AdjustWithFallback | routers/ai_adjustment/route.py:143-164 | with no candidates: the generic 500, no write, and memory still grows, ending with the fallback output |
| AiAdjustment.AdjustUnauthorized | routers/ai_adjustment/route.py:23-26 | the answer is 401 exactly when there is no uid, and then neither memory nor store changes |
| AiAdjustment.AdjustStoresOnlyOnSuccess | routers/ai_adjustment/route.py:158-171 | errors are the 401 or the generic 500 with the store untouched; a success writes exactly the returned adjustment at `aiAdjustment/<today>` |
| AiAdjustment.AdjustMemoryIsolation | routers/ai_adjustment/route.py:28-32 | the caller's entry is created when absent and otherwise only extended; no other user's entry appears, disappears or changes |
| AiAdjustment.AdjustReadFails | routers/ai_adjustment/route.py:37-39 | a missing profile, or a window before the calendar, is the generic 500; only the caller's memory entry is created |
| AiAdjustment.AdjustTurns | routers/ai_adjustment/route.py:60-66 | with successful reads the turns are appended as above, and the prompt's last adjustment is the document at the key the result is written to |
| AiAdjustment.AdjustFallback | routers/ai_adjustment/route.py:143-164 | with no candidates the answer is an error and nothing is written, for every caller |
| AiAdjustment.AdjustmentRouter.constructor | routers/ai_adjustment/route.py:15 | the memory map starts empty |
| AiAdjustment.AdjustmentRouter.Handle | routers/ai_adjustment/route.py:17-171 | the handler's answer, memory and store are those `Adjust` gives |
| AiAdjustment.AdjustmentRouter.Serve | routers/ai_adjustment/route.py:33-171 | after the memory entry exists, the reads, conversation and write are those `AdjustWith` gives |
| AiAdjustment.AdjustmentRouter.Gather | routers/ai_adjustment/route.py:38-92 | the reads yield `Read`: profile, plan, last adjustment and logs, or failure |
| AiAdjustment.AdjustmentRouter.Converse | routers/ai_adjustment/route.py:120-149 | the saves and the model call change only the caller's turns, to those the conversation yields |
| AiAdjustment.AdjustmentRouter.Respond | routers/ai_adjustment/route.py:142-166 | the output is saved, then parsed; the answer and the document to store are those `Answer` gives |
| AiAdjustment.AdjustmentRouter.SaveContext | routers/ai_adjustment/route.py:123 | `save_context` appends one turn to the caller's memory and changes no other entry |

## Left out

- The generative model call and the prompt text are not modelled. The model
  is the `generate` parameter. The prompts are structured values holding what
  the f-strings embed (profile, plan, logs, last adjustment), not the text.
  A failed call, or a candidate without parts, is `CallFailed`.
- `json.loads` is not modelled. It is the `parse` parameter, and only
  `JsonLoadsContract` is assumed of it.
- The conversation library's internals are not modelled. Memory is a
  sequence of turns per user. The sentinel test reads a key that depends on
  the library, so it is the opaque `contextSaved` input. No claim is made
  that the sentinel is saved only once.
- `datetime.now` and the timestamp fields are not modelled. The date is a
  parameter, and the `logged_at`, `created_at` and `lastUpdated` stamps are
  opaque values. The readings are independent inputs:
  - `log_meal` reads the clock twice: once for `logged_at`, once for the date.
  - `check_missing_meals` reads it once for the date and once per placeholder.
  - `add_dietplan` reads it once per written day.
  Nothing ties a stamp to the date or orders the stamps in time.
- Calendar.DateKey has a fixed width: the key is the four-digit RFC 3339
  year even for years below 1000, where the platform's `strftime("%Y")` may
  not pad.
- LogMeal.LogMealRoute requires `category` to be a string when the caller
  is signed in. A missing or non-string category makes the store pick a
  random id or fail, which is not modelled. The 401 path takes any body.
- LogMeal.LogMealResult requires `category` to be a string for a signed-in caller, for the same reason.
- LogMeal.LogMealReadBack assumes a category string, kept as one path
  segment. The client splits an id containing '/' into segments. An odd
  number of slashes makes the reference invalid and the route answers 500.
  An even number writes a nested document at a deeper path. An empty id
  fails. None of this is modelled.
- Request bodies are assumed to be JSON objects. A body that is not an
  object fails at `.get`, which is not modelled.
- Session cookies and token verification are not modelled. The session
  check is only a uid that may be absent or empty.
- APScheduler start-up (its job is commented out), the FastAPI/CORS wiring,
  and async/await are not modelled.
- Concurrency is not modelled: concurrent requests racing on the shared
  memory map, or on the store.
- The error print at routers/ai_adjustment/route.py:170 is not modelled.
- Floating-point semantics are not modelled. A float is a real number,
  which matters only for truthiness (`0.0` is false).
- Python's set iteration order for the schedule is left open. The model
  writes the missing categories in an arbitrary order and records that order
  (a ghost value). The order decides only which clock reading each
  placeholder's `logged_at` gets (`LogMeal.BackfillStampsOnly`).
- Firestore.DocumentStore.Set does not model the store refusing a write:
  integers outside 64 bits, arrays nested directly in arrays, documents over
  1 MiB, or an empty id. Every write succeeds, and every id is one path
  segment. The client splits an id containing '/' into segments instead,
  which is not modelled either (see the lines below).
- AiAdjustment.Answer does not model a refused write of the parsed object.
  The code would answer the generic 500 and store nothing.
- LogMeal.LogMealRoute does not model a refused write of the meal record
  (for example a body integer outside 64 bits). The code would answer 500.
- UserRoutes.AddDataRoute does not model a refused write of the profile. The
  code would answer 500.
- UserRoutes.AddDietPlanRoute does not model a refused write of a day. The
  code would answer 500 and keep the days written before it. Nor does it
  model a day name containing '/', which the client splits into segments.
  An odd number of slashes fails with 500, and the earlier days stay
  written. An even number writes a nested document: "Mon/x/Tue" is stored
  at `users/{uid}/dietPlan/Mon/x/Tue` and the route succeeds.
