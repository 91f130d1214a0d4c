# MEDICORE AI: rule-based services, room relay and record rules in Dafny

This project models the parts of the MEDICORE hospital system that make decisions by fixed
rules. It then proves properties of that model.

- **Prediction router of the AI service** (`PredictInteractions`, `PredictRecommend`,
  `PredictRestock`, `PredictForecast`):
  - a drug-interaction check against a fixed table;
  - a medicine recommendation by exact, then fuzzy, disease lookup;
  - restock advice from urgency bands;
  - seasonal disease forecasts per region, and merged over the five Coimbatore regions.
- **Second, normalising interaction checker** (`DrugInteractions`):
  - each drug name is lower-cased, stripped of dose tokens and resolved through a
    brand-name table;
  - every ordered pair of names is then matched against an interaction table.
- **Real-time relay of the backend** (`RoomRouter`):
  - a `Hub` class holds the rooms each connection has joined, and `JOIN_ROOM` changes them;
  - the relay itself is a pure function: each event is sent on, under the same name, to a
    fixed set of rooms.
- **Record rules of the data layer** (`Records`):
  - the enumerations;
  - the defaults;
  - the not-null and 1..5 range checks when a record is created.

Supporting modules:

- `Wrappers`: `Option` and `Result`.
- `StringUtil`: the Python string operations the service uses, on ASCII: `lower`, `strip`,
  `split()`, `" ".join`, `replace`, `isdigit` and `in`.
- `Sorting`: Python's stable `sorted` by an integer key. A descending sort is modelled as a
  sort on the negated key, which is stable in the same way.
- `Rounding`: Python's `round` applied to an exact quotient, rounding halves to even.

Python dictionaries are modelled as sequences of pairs in declaration order, because the
service depends on iteration order. Floating-point values are modelled as exact scaled
integers:

- hundredths for base rates, risk factors and confidences;
- tenths for season multipliers and average daily cases.

The calendar month and the backend's inventory answer are parameters. Each imperative
handler is a `method` whose `ensures` ties its result to a reference function.

## Model

| member | source | states |
|---|---|---|
| PredictInteractions.Check | ai-service/api/routes/predict.py:343-362 | Fewer than two drugs gives safe, no warnings, the input echoed and no count. Otherwise, an entry is warned exactly when both its lower-cased drugs occur as substrings of some cleaned input; safe holds iff there are no warnings; the count is the number of drugs. |
| PredictInteractions.FiringAppend | ai-service/api/routes/predict.py:351-355 | The warnings keep table order: the warnings of a split table are those of its first part, followed by those of its second. |
| PredictInteractions.CleanedAt | ai-service/api/routes/predict.py:349 | Entry k of the cleaned list is drug k stripped and lower-cased, in input order. |
| PredictInteractions.AnyMentions | ai-service/api/routes/predict.py:354 | The generator loop answers true exactly when some drug contains the name. |
| PredictInteractions.CleanAll | ai-service/api/routes/predict.py:349 | The comprehension loop builds the cleaned list. |
| PredictInteractions.ScanTable | ai-service/api/routes/predict.py:351-355 | The loop over the table appends exactly the entries that fire, in table order. |
| PredictInteractions.CheckInteractions | ai-service/api/routes/predict.py:343-362 | The handler computes the answer `Check` defines. |
| PredictRecommend.ExactIndex | ai-service/api/routes/predict.py:207 | The dictionary lookup finds the key equal to the request, or reports that no key equals it. |
| PredictRecommend.FirstFuzzy | ai-service/api/routes/predict.py:211-215 | The search returns the first key, in table order, that contains the request or is contained in it (case-insensitive), or reports that none does. |
| PredictRecommend.Names | ai-service/api/routes/predict.py:227 | The recommended names are the entry's medicine names, in order. |
| PredictRecommend.SearchFuzzy | ai-service/api/routes/predict.py:211-215 | The loop with `break` finds the same key as `FirstFuzzy`. |
| PredictRecommend.RecommendFrom | ai-service/api/routes/predict.py:205-230 | The handler's steps on a table compute `Recommend`. |
| PredictRecommend.RecommendMedicine | ai-service/api/routes/predict.py:205-230 | The handler on the built-in table computes `Recommend`. |
| PredictRecommend.ExactKeyAnswer | ai-service/api/routes/predict.py:207-230 | A request equal to a key gets that entry's names in order, the entries themselves and the verification note, even when an earlier key also matches fuzzily. |
| PredictRecommend.FuzzyAnswer | ai-service/api/routes/predict.py:208-230 | With no exact key, the first fuzzily matching key wins, and the answer is labelled with that key. |
| PredictRecommend.EmptyRequestMatchesFirst | ai-service/api/routes/predict.py:212 | The empty request is inside every key, so it always gets the first entry. |
| PredictRecommend.EmptyRequestGetsInfluenza | ai-service/api/routes/predict.py:205-215 | On the built-in table, the empty request gets the influenza medicines. |
| PredictRecommend.NoMatchAnswer | ai-service/api/routes/predict.py:217-223 | With no match there is one recommendation built from the first word and no detailed medicines. A request with no word raises instead (`split()[0]` on an empty list). |
| PredictRecommend.AnswerFromTable | ai-service/api/routes/predict.py:205-230 | Every successful answer either is a table entry under its key or lists no medicines. |
| PredictRestock.UrgencyMonotone | ai-service/api/routes/predict.py:275 | Urgency bands are at most 7 critical, at most 14 high, at most 21 medium, otherwise low. Fewer days left is never less urgent. |
| PredictRestock.DaysRemaining | ai-service/api/routes/predict.py:274 | Days left are stock divided by max(demand/30, 1), rounded half to even. |
| PredictRestock.MakeRec | ai-service/api/routes/predict.py:273-285 | The record carries the given name, stock, demand, confidence and source. The order quantity is max(demand − stock, 0) + 200, so at least 200, and exactly 200 iff demand ≤ stock. Urgency comes from the days remaining. |
| Sorting.Take | ai-service/api/routes/predict.py:258 | `xs[:n]`: the prefix of exactly n elements, or all of xs when it has n or fewer. |
| PredictRestock.BuildLiveRecs | ai-service/api/routes/predict.py:241-256 | The loop over live items builds the per-item records. |
| PredictRestock.BuildFallbackRecs | ai-service/api/routes/predict.py:272-285 | The loop over the simulated list builds its records. |
| PredictRestock.RestockRecommendations | ai-service/api/routes/predict.py:233-287 | The handler uses live records when there is at least one, otherwise the simulated ones. |
| PredictRestock.TopTen | ai-service/api/routes/predict.py:258 | Sorting a non-empty list and keeping ten: sorted; exactly min(len, 10) records drawn from the list (all of it when it has ten or fewer); no dropped record more urgent than a kept one. |
| PredictRestock.RestockSortedSelection | ai-service/api/routes/predict.py:257-287 | The answer is sorted by days remaining. The live answer is the min(items, 10) most urgent items, drawn from the inventory. The simulated answer is all seven records reordered. |
| PredictRestock.SelectedFrom | ai-service/api/routes/predict.py:258 | Sorting and truncating keep only records of the list. |
| PredictRestock.RestockTagged | ai-service/api/routes/predict.py:247-285 | Every record carries its path's source tag and confidence: 0.85 live, 0.82 simulated. |
| PredictRestock.LiveDaysBound | ai-service/api/routes/predict.py:244-246 | Live demand is max(2·stock, 100). A live item therefore never shows more than 15 days, shows exactly 15 (medium) from 50 units up, and is never low. |
| PredictRestock.FallbackFigures | ai-service/api/routes/predict.py:262-275 | The seven simulated medicines have 8, 19, 15, 18, 16, 13 and 14 days left; none of them is critical. |
| PredictForecast.FindAgg | ai-service/api/routes/predict.py:182 | Where a disease's running totals sit, or that it has none yet. |
| PredictForecast.ComputePredictions | ai-service/api/routes/predict.py:129-169 | The per-region loop builds the rows of `Predictions`. |
| PredictForecast.SeasonalTrend | ai-service/api/routes/predict.py:136-155 | Influenza, dengue, malaria, cold and gastroenteritis are rising exactly in their listed months. Otherwise influenza, dengue and malaria decline, and cold and gastroenteritis stay stable. Every unlisted disease is stable. |
| PredictForecast.ConfidenceBounds | ai-service/api/routes/predict.py:157 | Confidence stays within 0.70..0.95 for any non-negative population. |
| PredictForecast.DescendingByCases | ai-service/api/routes/predict.py:169 | Sorting in reverse: every row kept, cases non-increasing, rows with equal cases in input order. |
| PredictForecast.PredictionsOrdered | ai-service/api/routes/predict.py:144-169 | A region's rows are its profile's rows, most cases first. |
| PredictForecast.RegionLabels | ai-service/api/routes/predict.py:159-167 | Every row of a region carries that region's name and a risk factor. |
| PredictForecast.MergeRegions | ai-service/api/routes/predict.py:178-185 | The nested merge loops fold every region's sorted predictions into the totals table. |
| PredictForecast.FinalizeMerged | ai-service/api/routes/predict.py:187-190 | The loop turns each disease's totals into a row. |
| PredictForecast.AddPredictionTotals | ai-service/api/routes/predict.py:181-185 | One prediction creates or updates only its own disease's totals, and no disease ever gets two entries. |
| PredictForecast.MergedTotals | ai-service/api/routes/predict.py:178-185 | After merging, each seen disease has exactly its reference totals: summed cases and daily averages, the largest confidence, the trend scores in order. An unseen disease has none. |
| PredictForecast.OverallFigures | ai-service/api/routes/predict.py:176-193 | Each "Overall" row has a distinct disease and carries that disease's totals over all regions. The trend is rising iff the mean score is above 0.3, declining iff it is below −0.3. |
| PredictForecast.OverallLabels | ai-service/api/routes/predict.py:182-193 | Every merged row is labelled "Overall (Coimbatore)" and has no risk factor. |
| PredictForecast.OverallComplete | ai-service/api/routes/predict.py:192-193 | A disease seen in some region is missing from the "Overall" answer only when ten rows with at least as many cases fill it. |
| PredictForecast.FindRegion | ai-service/api/routes/predict.py:196 | The region lookup finds a region with the name, or reports that none has it. |
| PredictForecast.ForecastOutcome | ai-service/api/routes/predict.py:172-202 | A name that is neither a region nor "Overall" gets status 400 with the list of regions plus "Overall", and nothing else fails. Every answer has at most ten rows, most cases first, labelled with the answer's region. |
| PredictForecast.PredictDisease | ai-service/api/routes/predict.py:172-202 | The handler computes `Forecast` on the five regions. |
| Rounding.RoundHalfEven | ai-service/api/routes/predict.py:245 | The rounding is a nearest integer, the even one on a tie. |
| Rounding.NearestEvenUnique | ai-service/api/routes/predict.py:245 | There is only one such integer. |
| DrugInteractions.KeepNonDose | ai-service/api/routes/interactions.py:70 | A token is kept iff it is not a dose for the suffix; the result is no longer than the input and stays made of tokens. |
| DrugInteractions.KeepNonDoseAppend | ai-service/api/routes/interactions.py:70 | One pass filters each token on its own: the pass over a + b is the pass over a followed by the pass over b, so order and repetitions are kept. |
| DrugInteractions.DropAllDoseFree | ai-service/api/routes/interactions.py:68-70 | Split after all the passes is the one-pass reference filter `DoseFree`: exactly the tokens a dose for none of the units, in order and with their repetitions. |
| DrugInteractions.DropEachSuffix | ai-service/api/routes/interactions.py:68-70 | The suffix loop computes the passes in order. |
| DrugInteractions.NormalizeDrugName | ai-service/api/routes/interactions.py:64-72 | The normaliser: cleaning, then brand lookup. |
| DrugInteractions.SplitDropDoses | ai-service/api/routes/interactions.py:69-70 | Splitting a pass's output gives back exactly the tokens it kept. |
| DrugInteractions.DropAllTokens | ai-service/api/routes/interactions.py:68-70 | After one or more passes, the name is its surviving tokens joined by single spaces. Those tokens are exactly `DoseFree` of the input's tokens, so a token survives iff it is a token of the input and a dose for no suffix. |
| DrugInteractions.FinalStripRedundant | ai-service/api/routes/interactions.py:71 | The final strip never changes the name. |
| DrugInteractions.CleanedWords | ai-service/api/routes/interactions.py:66-71 | The cleaned name is `DoseFree` of the words of the lower-cased, stripped name, joined by single spaces. So a word is in it iff it is a word of that name and a dose in no unit, in the name's order. |
| DrugInteractions.BrandWithDose | ai-service/api/routes/interactions.py:49-72 | A lower-case brand followed by a dose in milligrams normalises to the drug the brand stands for. |
| DrugInteractions.CrocinIsParacetamol | ai-service/api/routes/interactions.py:49-72 | "crocin 500mg" normalises to "paracetamol". |
| DrugInteractions.BlankNormalizesToEmpty | ai-service/api/routes/interactions.py:64-72 | A blank name normalises to the empty string. |
| DrugInteractions.NormalizedAllAt | ai-service/api/routes/interactions.py:80 | The normalised list keeps input order: entry i is drug i normalised. |
| DrugInteractions.NormalizeAll | ai-service/api/routes/interactions.py:80 | The comprehension loop builds the normalised list. |
| DrugInteractions.Check | ai-service/api/routes/interactions.py:74-107 | Fewer than two drugs gives the short safe answer. Otherwise: the input is echoed; the names are normalised in order; safe holds iff there are no warnings; the count is the number of warnings. |
| DrugInteractions.ScanEntries | ai-service/api/routes/interactions.py:88-99 | The innermost loop collects one pair's warnings. |
| DrugInteractions.ScanRow | ai-service/api/routes/interactions.py:84-99 | The middle loop collects the warnings of every later drug paired with drug i. |
| DrugInteractions.ScanPairs | ai-service/api/routes/interactions.py:83-99 | The outer loop collects the warnings of every pair i < j, in visiting order. |
| DrugInteractions.CheckInteractions | ai-service/api/routes/interactions.py:74-107 | The handler computes `Check` on the built-in table, with warnings taken from the matched entry. |
| DrugInteractions.CheckWarnings | ai-service/api/routes/interactions.py:83-99 | A warning is reported iff some entry matches a pair i < j: drug1 the earlier name, drug2 the later, each by substring in either direction. The warning names the later request first and carries the entry's severity and description. |
| DrugInteractions.PairWarningsCount | ai-service/api/routes/interactions.py:83-99 | The visited pairs yield one warning per matching (pair, entry) triple, counted independently by `AllHits`. |
| DrugInteractions.CheckWarningCount | ai-service/api/routes/interactions.py:83-106 | The number of warnings, and `total_interactions_found`, equal the number of triples i < j, k where entry k matches the normalised names i and j. Two pairs giving the same warning count twice. |
| DrugInteractions.EmptyNamesMatchEverything | ai-service/api/routes/interactions.py:64-99 | Two names that normalise to nothing match every entry, so the answer has at least one warning per entry and is unsafe. |
| DrugInteractions.CheckAsWritten | ai-service/api/routes/interactions.py:74-107 | As written, the handler raises on the first match and otherwise returns the full report. |
| DrugInteractions.AsWrittenFailsWhenUnsafe | ai-service/api/routes/interactions.py:94-99 | As written, the handler fails on exactly the requests the corrected one finds unsafe, and agrees with it on the rest. |
| DrugInteractions.EmptyPairRaises | ai-service/api/routes/interactions.py:92-97 | Two names that normalise to nothing make the handler as written raise. |
| DrugInteractions.BlankPairRaises | ai-service/api/routes/interactions.py:77-97 | The request `["", ""]` makes the handler as written raise `NameError`. |
| RoomRouter.UserIdOf | backend/src/socket/index.js:50 | Reading `data.userId` throws exactly when the payload is null or undefined. |
| RoomRouter.KindOf | backend/src/socket/index.js:6-77 | An event name selects the handler registered under it; any other name selects none. |
| RoomRouter.Recipients | backend/src/socket/index.js:13 | Emitting to a room set reaches exactly the connections in at least one of the rooms. |
| RoomRouter.DeliveriesFor | backend/src/socket/index.js:12-77 | There is one delivery per emit, in order, each with the event name, the payload and its recipients. |
| RoomRouter.Hub.constructor | backend/src/socket/index.js:1-2 | The server starts with no connections. |
| RoomRouter.Hub.Connect | backend/src/socket/index.js:2 | A new connection is in its own id's room only. |
| RoomRouter.Hub.Disconnect | backend/src/socket/index.js:55-57 | A closed connection leaves every room. |
| RoomRouter.Hub.Receive | backend/src/socket/index.js:6-77 | `JOIN_ROOM` adds the sender to exactly the named room. Every other event leaves membership alone. The deliveries are those of `Handle`. |
| RoomRouter.JoinOnlyAddsSender | backend/src/socket/index.js:6-8 | Joining changes no other connection, and adds no room but the one named. |
| RoomRouter.UnhandledEmitsNothing | backend/src/socket/index.js:2-78 | An event without a handler, and `JOIN_ROOM`, emit nothing. |
| RoomRouter.ForwardedUnchanged | backend/src/socket/index.js:12-77 | Every relayed event keeps its name and its payload exactly. |
| RoomRouter.SenderIncluded | backend/src/socket/index.js:13 | `io.to` reaches the sender too whenever it is in a target room. |
| RoomRouter.NotificationOnlyToUser | backend/src/socket/index.js:49-53 | A notification with a truthy userId reaches exactly the connections that joined `user_<userId>`. Without one, nothing is emitted. |
| RoomRouter.NotificationWithoutPayloadThrows | backend/src/socket/index.js:50 | A null or missing notification payload makes the handler throw. |
| RoomRouter.FixedHandlersTotal | backend/src/socket/index.js:12-77 | Every other handled event succeeds whatever its payload. |
| RoomRouter.SeparateEmitsDeliverTwice | backend/src/socket/index.js:17-36 | `PRESCRIPTION_SENT` is two emits, so a member of pharmacy and admin receives it twice. `SOS_ALERT` is one emit to a room union, received once. |
| RoomRouter.RoutingTablesAgree | backend/src/socket/index.js:12-77 | The relay table and the per-room table of heard events agree both ways, for every role room and every event but `NOTIFICATION`. |
| RoomRouter.NotificationNeverRoleRoom | backend/src/socket/index.js:49-53 | A notification never goes to a role room. |
| Records.ParseRole | backend/src/models/index.js:9 | The role column accepts exactly the five role names. |
| Records.ParseDoctorStatus | backend/src/models/index.js:51 | The doctor status column accepts exactly the six statuses. |
| Records.ParseAppointmentStatus | backend/src/models/index.js:64 | The appointment status column accepts exactly the five statuses. |
| Records.ParsePrescriptionStatus | backend/src/models/index.js:126 | The prescription status column accepts exactly the three statuses. |
| Records.ParseBillingStatus | backend/src/models/index.js:152 | The billing status column accepts exactly the four statuses. |
| Records.ParsePaymentMethod | backend/src/models/index.js:151 | The payment method column accepts exactly the four methods. |
| Records.ParseSosStatus | backend/src/models/index.js:180 | The SOS status column accepts exactly the four statuses. |
| Records.EnumRoundTrips | backend/src/models/index.js:9-180 | Every enumeration value is stored under its name and read back as itself. |
| Records.NoCheckedInStatus | backend/src/models/index.js:64 | No appointment status is `checked_in`. |
| Records.CreateUser | backend/src/models/index.js:4-12 | Creation succeeds iff name, email and password hash are given and any given role is valid. Name, email and password hash are stored as given. Role defaults to patient and is_active to true. |
| Records.CreateDoctor | backend/src/models/index.js:42-52 | Creation needs a name and a specialty, both stored as given. Status is one of six, by default available. |
| Records.CreateAppointment | backend/src/models/index.js:58-70 | Creation needs a scheduled time, stored as given. Status is one of five (default booked). A given triage severity is in 1..5. is_walk_in defaults to false. Queue position and wait are kept as given. |
| Records.CreatePrescription | backend/src/models/index.js:117-126 | Status is one of three, by default pending; any other text is rejected. |
| Records.CreateBilling | backend/src/models/index.js:140-152 | Status is one of four, by default pending. The payment method is optional, and when given one of four. |
| Records.CreateDiseaseRecord | backend/src/models/index.js:157-165 | A diagnosis name is required and stored as given. Severity is optional, and when given is in 1..5. |
| Records.CreateSosAlert | backend/src/models/index.js:170-180 | Severity is required and in 1..5. Status is one of four, by default pending. |
| Records.DefaultsApply | backend/src/models/index.js:9-180 | With only the required columns, every default applies. |

## Left out

- Floating-point arithmetic: rates, confidences and averages are exact scaled integers. The
  representation error of binary floats, and `round` on such floats, is not modelled.
- The final `round(..., 1)` of the merged average daily cases (predict.py:190) is left out.
  The model's sums of tenths are exact, so that rounding changes nothing there.
- Wall-clock time: the month (predict.py:135) is a parameter.
- Network calls:
  - the live inventory request (predict.py:237-239) is an `Option` input. `None` stands
    for every case in which the handler falls back to the simulated list through
    `except Exception: pass` (predict.py:259-260): a failed or non-200 call, and also a
    200 answer whose processing raises (a body that is neither a list nor a dict, an item
    without `.get`, a null stock that `stock * 2` rejects);
  - `get_real_stats` (predict.py:290-330) is not part of this model, because it only
    formats what the network returns.
- Text handling is ASCII only: the model has no Unicode case mapping and no Unicode white
  space.
- interactions.py does not load as written:
  - `APIrouter` and `pyndatic` at lines 1-2 do not resolve;
  - line 78 lacks a colon after `"warnings"`.
  The model follows the evident intent of these lines, a dictionary with keys "safe",
  "warnings" and "checked_drugs".
- Request validation by pydantic (`List[str]` and the `int` fields) and HTTP status
  handling outside the unknown-region error.
- Socket transport:
  - room payloads that are not strings (a non-string `JOIN_ROOM` argument changes no
    membership in the model);
  - payload numbers that are not integers: `Value.Num` holds an integer, so a userId
    such as 1.5, which socket/index.js:51 routes to `user_1.5`, cannot be expressed;
  - CORS and ping settings;
  - the console logging.
- Sequelize:
  - the associations (models/index.js:211-254), and the uniqueness of email and code
    columns, which need the database;
  - the columns without a rule.
- Explicit nulls for defaulted columns: Sequelize fills a `defaultValue` only when the
  attribute is not given, and stores an explicit `null` on a nullable column as NULL. The
  model's `None` means "not given", and its record types cannot hold a NULL enum or
  boolean. The members this affects:
  - Records.CreateUser: `role: null` and `is_active: null` (models/index.js:9,11) are
    stored by the source as NULL, while the model stores patient and true;
  - Records.CreateDoctor: `status: null` (models/index.js:51) is stored as NULL, while the
    model stores available;
  - Records.CreateAppointment: `status: null` and `is_walk_in: null` (models/index.js:64,68)
    are stored as NULL, while the model stores booked and false;
  - Records.CreatePrescription, Records.CreateBilling, Records.CreateSosAlert: an explicit
    null status is stored as NULL, while the model stores pending.
- Queue ordering, wait estimation and status transitions live in controllers that are not
  part of this model.
- PredictForecast.ConfidenceBounds: proved for non-negative populations only, since every
  region in the table has one.

## Findings

| source | as written | input that shows it | evidently intended | confidence | as-written member | corrected member |
|---|---|---|---|---|---|---|
| ai-service/api/routes/interactions.py:97-98 | The matching branch reads `interaction["severity"]` and `interaction["description"]`; the loop variable is `interactions`, so the name is unbound and the first match raises `NameError` | `{"drugs": ["", ""]}`: both names normalise to "" and match the first entry | severity and description of the matched entry `interactions` | not executed | DrugInteractions.BlankPairRaises | DrugInteractions.CheckWarnings |
