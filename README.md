# InfluEve core, modelled in Dafny

InfluEve scores influencers against a brand brief. A brief holds a brand, keywords and four KPI weights. The back end scores every stored influencer against a brief's weights with a deterministic hash-based scorer. It records the scores and returns a report. The front end shows the report as a sortable table, a radar chart of the top row, and a CSV export. Its other pages add influencers by handle and create briefs.

The project models the logic of that core, one module per source file:

- `Reports` and `ReportsCsv` (frontend/src/pages/ReportsPage.tsx): the stable descending sort by one of five keys, the fetch state, the CSV escaper and document, and the download decision.
- `Radar` (frontend/src/components/ScoreRadar.tsx): the 3 to 5 spokes of the chart.
- `Handles` (frontend/src/pages/AddInfluencersPage.tsx): the handle parser and the page state that `add` updates.
- `Briefs` (frontend/src/pages/BriefPage.tsx): weight clamping, the weight sum, keyword parsing, and the form's save and reset.
- `Scoring` (backend/app/scoring.py): the seed hash, the bit windows, and `compute_scores`.
- `Store` (backend/app/main.py): the handlers' rules over an in-memory database whose tables are sequences.
- `Api` (frontend/src/api.ts): the error-message chain and the two interceptors.

`Text` (ASCII trim, lower-casing, split and join) and `Maybe` (an option type) are shared helpers.

Page state and the database are classes whose methods change their fields. Pure pipelines are functions with lemmas. Loops are methods with invariants: the seed hash, the report loop and influencer insertion.

## Model

| member | source | states |
|---|---|---|
| Reports.SortBy | frontend/src/pages/ReportsPage.tsx:46-53 | The sorted view is a permutation of the rows with the same length, non-increasing in the field the key selects. |
| Reports.SortByIsStable | frontend/src/pages/ReportsPage.tsx:53 | For every metric value, the rows carrying it keep their fetched relative order, as the engine's stable sort does. |
| Reports.SortByIsTheStableSort | frontend/src/pages/ReportsPage.tsx:53 | Any descending ordering that keeps ties in fetched order equals `SortBy`, so the engine's sort algorithm does not matter. |
| Reports.StableDescendingUnique | frontend/src/pages/ReportsPage.tsx:53 | Two descending orderings with the same tie order are equal. |
| Reports.SortByIdempotent | frontend/src/pages/ReportsPage.tsx:53 | Sorting the sorted view again by the same key changes nothing. |
| Reports.Insert | frontend/src/pages/ReportsPage.tsx:53 | The insertion step of the sort adds exactly the one row: the result is a permutation of the input plus that row. |
| Reports.InsertDescending | frontend/src/pages/ReportsPage.tsx:53 | Inserting a row into a descending sequence keeps it descending. |
| Reports.InsertTieOrder | frontend/src/pages/ReportsPage.tsx:53 | Inserting a row puts it after nothing it ties with, so ties keep their input order. |
| Reports.WithMetricAppend | frontend/src/pages/ReportsPage.tsx:53 | The rows with a given metric value in a concatenation are those of the first part, then those of the second. |
| Reports.WithMetricCons | frontend/src/pages/ReportsPage.tsx:53 | The rows of `[a] + t` with a given metric value are `a` if it has that value, then those of `t`. |
| Reports.TopRadar | frontend/src/pages/ReportsPage.tsx:210-217 | The radar card draws the top sorted row's five metrics, in chart order. |
| Reports.TopRadarShowsMaxTrust | frontend/src/pages/ReportsPage.tsx:23 | Under the initial key `trust`, the radar's Trust value is the largest trust index among the rows. |
| Reports.ReportsView.constructor | frontend/src/pages/ReportsPage.tsx:22-25 | The view starts with no rows, sort key `trust`, loading and no error. |
| Reports.ReportsView.Sorted | frontend/src/pages/ReportsPage.tsx:53 | The memo is a descending permutation of `rows`, stable on ties, and never reorders `rows`. |
| Reports.ReportsView.SetSortBy | frontend/src/pages/ReportsPage.tsx:120-124 | Choosing a key leaves `rows` alone, and the view becomes the sort of `rows` by that key. Switching to another key and back gives the same view. |
| Reports.ReportsView.Load | frontend/src/pages/ReportsPage.tsx:28-42 | Without a brief id nothing is requested and nothing changes. On success a null payload becomes `[]`. On failure the message is `detail`, else "Failed to load report". Loading ends false either way. |
| ReportsCsv.CsvEscape | frontend/src/pages/ReportsPage.tsx:68-72 | The value comes back unchanged iff it has no `"`, `,` or line feed. Otherwise it is wrapped in quotes. |
| ReportsCsv.DoubleQuotes | frontend/src/pages/ReportsPage.tsx:70 | Doubling quotes never shortens the value. |
| ReportsCsv.FieldRoundTrip | frontend/src/pages/ReportsPage.tsx:68-72 | Reading an escaped value back gives the original value and stops where it ended. |
| ReportsCsv.ReadQuotedRoundTrip | frontend/src/pages/ReportsPage.tsx:70-71 | Inside quotes, each doubled quote reads back as one quote, and the closing quote ends the field. |
| ReportsCsv.QuotedFieldRoundTrip | frontend/src/pages/ReportsPage.tsx:70 | A quoted value reads back as the original value. |
| ReportsCsv.ReadField | frontend/src/pages/ReportsPage.tsx:68-72 | A reader of one field, quoted or bare, which exists only to state the escaper's round trip: what follows the field is never longer than the input. |
| ReportsCsv.ReadRecords | frontend/src/pages/ReportsPage.tsx:74-89 | A reader of the export's lines, which exists only to state the export's round trip. Its meaning is given by `RecordsRoundTrip` and `CsvRoundTrip`. |
| ReportsCsv.ReadBareRoundTrip | frontend/src/pages/ReportsPage.tsx:72 | An unquoted value reads back up to the next comma or line feed. |
| ReportsCsv.RecordRoundTrip | frontend/src/pages/ReportsPage.tsx:77-86 | A comma-joined line of escaped fields reads back as those fields. |
| ReportsCsv.RecordsRoundTrip | frontend/src/pages/ReportsPage.tsx:88 | Lines joined by line feeds read back as the records, in order. |
| ReportsCsv.CsvRoundTrip | frontend/src/pages/ReportsPage.tsx:74-89 | An export is the byte-order mark, then the header record, then one record per item in input order holding that item's six cells. |
| ReportsCsv.ToCsv | frontend/src/pages/ReportsPage.tsx:88 | The document begins with U+FEFF. |
| ReportsCsv.CsvFirstLine | frontend/src/pages/ReportsPage.tsx:59-88 | After the mark comes exactly `handle,authenticity,relevance,resonance,expected_roas,trust_index`, followed by a line feed when there are rows. |
| ReportsCsv.HeaderUnescaped | frontend/src/pages/ReportsPage.tsx:59-66 | No header cell needs quoting. |
| ReportsCsv.HeaderJoin | frontend/src/pages/ReportsPage.tsx:59-75 | The header cells joined with commas are exactly `handle,authenticity,relevance,resonance,expected_roas,trust_index`. |
| ReportsCsv.PlainUnescaped | frontend/src/pages/ReportsPage.tsx:68-72 | A value of lower-case letters and underscores is not quoted. |
| ReportsCsv.Cells | frontend/src/pages/ReportsPage.tsx:77-84 | Each row has as many cells as the header. |
| ReportsCsv.Rows | frontend/src/pages/ReportsPage.tsx:76-84 | The cells of each item, one list per item, in order. |
| ReportsCsv.DataLines | frontend/src/pages/ReportsPage.tsx:76-87 | One escaped, comma-joined line per item, in order. |
| ReportsCsv.DateStamp | frontend/src/pages/ReportsPage.tsx:96 | The stamp is the first ten characters of the timestamp, or all of a shorter one. |
| ReportsCsv.ExportCsv | frontend/src/pages/ReportsPage.tsx:91-101 | An empty view gives no file, only the alert "Nothing to export yet.". Otherwise the file holds the CSV of the view and is named `influencer_report_brief_<briefId>_<date>.csv`. |
| Radar.Coalesce | frontend/src/components/ScoreRadar.tsx:24-26 | A base value is `row`'s field if present, else `scores`' field if present, else 0. A present 0 is kept. |
| Radar.RadarData | frontend/src/components/ScoreRadar.tsx:24-41 | Between 3 and 5 entries: Authenticity, Relevance, Resonance first in that order. ROAS is present iff `row` has an expected ROAS, and Trust iff it has a trust index. Both come from `row` only, and ROAS precedes Trust. |
| Radar.LegacyOnlyHasThree | frontend/src/components/ScoreRadar.tsx:28-30 | A call with only the legacy scores gives exactly the three base entries. |
| Radar.FullRecordHasFive | frontend/src/components/ScoreRadar.tsx:32-41 | A full record gives five entries, ending in ROAS then Trust. |
| Handles.Normalize | frontend/src/pages/AddInfluencersPage.tsx:18 | One leading `@` is dropped and the rest is lower-cased. |
| Handles.Tokens | frontend/src/pages/AddInfluencersPage.tsx:14-17 | The split, trimmed, non-empty pieces. `TokensClean`, `TokensAt`, `TokensAcrossRun` and `TokensOfJoinRun` state what they are. |
| Handles.TokensOfJoin | frontend/src/pages/AddInfluencersPage.tsx:14-17 | Non-empty handles without separators, joined by any one comma or whitespace character, split back into the same handles in order. |
| Handles.TokensAt | frontend/src/pages/AddInfluencersPage.tsx:14-17 | A separator cuts the token list where it cuts the text: the tokens before it, then the tokens after it, in order and with repeats kept. |
| Handles.TokensOfNothing | frontend/src/pages/AddInfluencersPage.tsx:14-17 | Empty text has no tokens. |
| Handles.TokensAcrossRun | frontend/src/pages/AddInfluencersPage.tsx:15 | A whole run of separators, such as `", "`, cuts the token list exactly as one separator does, so splitting at runs and at single separators agree. |
| Handles.TokensOfJoinRun | frontend/src/pages/AddInfluencersPage.tsx:14-17 | Handles typed with the same non-empty run of separators between them (a comma, `", "`, a line break) come back as the tokens, in order. |
| Handles.TokensClean | frontend/src/pages/AddInfluencersPage.tsx:15-17 | Tokens are non-empty and hold no comma or whitespace. |
| Handles.SingleToken | frontend/src/pages/AddInfluencersPage.tsx:15-17 | Text without separators is one token. |
| Handles.SingleHandle | frontend/src/pages/AddInfluencersPage.tsx:12-21 | Text without separators parses to its one normalised handle. |
| Handles.FirstIndex | frontend/src/pages/AddInfluencersPage.tsx:20 | The first position at which a value occurs. |
| Handles.Dedup | frontend/src/pages/AddInfluencersPage.tsx:20 | No value twice, and exactly the values of the input. |
| Handles.DedupKeepsFirstOccurrenceOrder | frontend/src/pages/AddInfluencersPage.tsx:20 | The values come in the order of their first occurrences. |
| Handles.FirstIndexPrefix | frontend/src/pages/AddInfluencersPage.tsx:20 | A prefix holding a value finds the same first occurrence. |
| Handles.Normalized | frontend/src/pages/AddInfluencersPage.tsx:14-18 | One normalised handle per token, in order. |
| Handles.NormalizeClean | frontend/src/pages/AddInfluencersPage.tsx:18 | Stripping `@` and lower-casing adds no separator. |
| Handles.ParseHandles | frontend/src/pages/AddInfluencersPage.tsx:12-21 | `parseHandles`. `ParseHandlesSpec` states the result: no duplicates, the normalised tokens in first-occurrence order. |
| Handles.ParseHandlesSpec | frontend/src/pages/AddInfluencersPage.tsx:12-21 | The handles have no duplicates, are exactly the normalised tokens in first-occurrence order, and hold no comma or whitespace. |
| Handles.DoubleAtKeepsOne | frontend/src/pages/AddInfluencersPage.tsx:18 | `@@Bob` becomes `@bob`. |
| Handles.LoneAtGivesEmptyHandle | frontend/src/pages/AddInfluencersPage.tsx:17-18 | A lone `@` gives the empty handle. |
| Handles.Payload | frontend/src/pages/AddInfluencersPage.tsx:28 | One `{handle, platform: "instagram"}` per handle, in order. |
| Handles.AddInfluencersView.constructor | frontend/src/pages/AddInfluencersPage.tsx:7-10 | The page starts with empty input, nothing added, not loading and no error. |
| Handles.AddInfluencersView.SetInput | frontend/src/pages/AddInfluencersPage.tsx:8 | Typing replaces the input. |
| Handles.AddInfluencersView.Add | frontend/src/pages/AddInfluencersPage.tsx:23-41 | No handles means no request, and only the error is cleared. Otherwise the payload is posted. Success prepends the created items and clears the input. Failure shows `detail`, else "Failed to add influencers". |
| Briefs.Clamp | frontend/src/pages/BriefPage.tsx:29 | The weight is in [0, 1]. Non-numeric input gives 0, an in-range value is kept, and values above 1 or below 0 become 1 or 0. |
| Briefs.SetWeight | frontend/src/pages/BriefPage.tsx:143-148 | Only the edited weight changes. |
| Briefs.SumBounds | frontend/src/pages/BriefPage.tsx:30-33 | A sum of values from [0, 1] lies between 0 and their count. |
| Briefs.WeightSum | frontend/src/pages/BriefPage.tsx:30-33 | `weightSum`. `WeightSumIsTotal` and `WeightSumBounds` state its value and range. |
| Briefs.WeightSumIsTotal | frontend/src/pages/BriefPage.tsx:30-33 | The left-to-right reduction is the sum of the four weights. |
| Briefs.WeightSumBounds | frontend/src/pages/BriefPage.tsx:29-33 | With every weight clamped, the sum lies in [0, 4]. |
| Briefs.ParseKeywords | frontend/src/pages/BriefPage.tsx:56-59 | The keyword list sent with a brief. `ParseKeywordsClean`, `ParseKeywordsAtComma`, `ParseKeywordsOfPiece` and `ParseKeywordsOfJoin` state what it holds. |
| Briefs.ParseKeywordsClean | frontend/src/pages/BriefPage.tsx:56-59 | No keyword is empty, holds a comma, or has whitespace at either end. |
| Briefs.TrimmedPieceIsKeyword | frontend/src/pages/BriefPage.tsx:58-59 | A non-empty trimmed comma-free piece is a keyword. |
| Briefs.ParseKeywordsPieces | frontend/src/pages/BriefPage.tsx:56-59 | As a set, the keywords are exactly the non-empty trimmed comma-split pieces. Order and repeats are stated by `ParseKeywordsAtComma` and `ParseKeywordsOfPiece`. |
| Briefs.ParseKeywordsAtComma | frontend/src/pages/BriefPage.tsx:56-59 | A comma cuts the keyword list where it cuts the text: the keywords before it, then those after it, in order and with repeats kept. |
| Briefs.ParseKeywordsOfPiece | frontend/src/pages/BriefPage.tsx:56-59 | Comma-free text gives its trim as the one keyword, or no keyword when the trim is empty. With `ParseKeywordsAtComma` this fixes the whole list. |
| Briefs.ParseKeywordsOfKeyword | frontend/src/pages/BriefPage.tsx:56-59 | A single keyword typed alone parses to exactly itself. |
| Briefs.ParseKeywordsKeepsOrderAndRepeats | frontend/src/pages/BriefPage.tsx:56-59 | For any keywords `k` and `l`, `"k,,l, k"` gives `[k, l, k]`: the empty piece goes, the space is trimmed, and order and the repeat stay. |
| Briefs.ParseKeywordsAfterSpace | frontend/src/pages/BriefPage.tsx:58 | A keyword typed after a space parses to exactly itself. |
| Briefs.TrimAfterSpace | frontend/src/pages/BriefPage.tsx:58 | Trimming a space in front of text without edge whitespace gives that text. |
| Briefs.ParseKeywordsOfJoin | frontend/src/pages/BriefPage.tsx:56-59 | Keywords typed joined by commas parse back to the same list. |
| Briefs.ParseKeywordsOfNothing | frontend/src/pages/BriefPage.tsx:56-59 | An empty keyword text gives no keywords. |
| Briefs.KeywordsTrimmed | frontend/src/pages/BriefPage.tsx:58 | Trimming keywords changes nothing. |
| Briefs.BriefView.constructor | frontend/src/pages/BriefPage.tsx:13-25 | The form starts empty, with all four weights at 0.25, loading, and not saving. |
| Briefs.BriefView.ShownSum | frontend/src/pages/BriefPage.tsx:30-33 | The sum shown always lies in [0, 4]. |
| Briefs.BriefView.SetBrand | frontend/src/pages/BriefPage.tsx:14 | Typing replaces the brand. |
| Briefs.BriefView.SetKeywords | frontend/src/pages/BriefPage.tsx:21 | Typing replaces the keyword text. |
| Briefs.BriefView.EditWeight | frontend/src/pages/BriefPage.tsx:143-148 | The clamped value replaces that one weight, and every weight stays in [0, 1]. |
| Briefs.BriefView.LoadBriefs | frontend/src/pages/BriefPage.tsx:35-48 | Success replaces the list. Failure shows `detail`, else "Failed to load briefs". Loading ends. |
| Briefs.BriefView.Save | frontend/src/pages/BriefPage.tsx:50-85 | A blank trimmed brand sends nothing and changes nothing. Otherwise the payload carries the trimmed brand, the parsed keywords and the weights. |
| Briefs.BriefView.Submit | frontend/src/pages/BriefPage.tsx:63-84 | Success prepends the created brief, resets the form to its defaults and opens its report. Failure shows `detail`, else "Failed to create brief". Saving ends. |
| Briefs.BriefView.Reset | frontend/src/pages/BriefPage.tsx:177-185 | Brand, keywords and weights go back to their defaults, and the list is untouched. |
| Scoring.Hash | backend/app/scoring.py:4-8 | The polynomial hash stays below 10^9+7. |
| Scoring.Seed | backend/app/scoring.py:4-8 | `_seed_from_text`: the hash of the lower-cased text, below 10^9+7. |
| Scoring.SeedFromText | backend/app/scoring.py:4-8 | The loop computes the seed of the lower-cased text, below 10^9+7. |
| Scoring.SeedCaseInsensitive | backend/app/scoring.py:5-6 | Lower-casing the text first does not change the seed. |
| Scoring.SeedStep | backend/app/scoring.py:5-7 | The seed of "" is 0, and each further character applies `(h * 131 + ord(lower c)) mod (10^9+7)`. |
| Scoring.Window | backend/app/scoring.py:14 | Every ten-bit window is in [0, 1023]. |
| Scoring.TopWindowBound | backend/app/scoring.py:14-19 | Since seeds are below 10^9+7, the window at offset 22 is at most 238. |
| Scoring.S | backend/app/scoring.py:13-15 | Each window maps into [50, 95]. |
| Scoring.RoasRaw | backend/app/scoring.py:20 | `expected_roas` before rounding. `RoasRawRange` states its range. |
| Scoring.RoasRawRange | backend/app/scoring.py:20 | Before rounding, the expected ROAS lies in [1.2, 3.2]. |
| Scoring.WeightOf | backend/app/scoring.py:22-25 | A present key gives its weight, and a missing one gives 0.25. |
| Scoring.EmptyWeightsDefault | backend/app/scoring.py:22-25 | An empty weight map reads as four weights of 0.25. |
| Scoring.Min4 | backend/app/scoring.py:27-29 | The smallest of four values. |
| Scoring.Max4 | backend/app/scoring.py:27-29 | The largest of four values. |
| Scoring.Trust | backend/app/scoring.py:27-29 | `trust_index` before rounding, defined only for weights of non-zero total. `TrustWithinRange` states its bounds. |
| Scoring.TrustWithinRange | backend/app/scoring.py:27-29 | With non-negative weights of positive total, the trust index lies between the smallest and largest of the three scores and 30 times the ROAS. |
| Scoring.TrustAtLeast | backend/app/scoring.py:27-29 | A weighted mean is at least any lower bound of its values. |
| Scoring.TrustAtMost | backend/app/scoring.py:27-29 | A weighted mean is at most any upper bound of its values. |
| Scoring.ComputeScores | backend/app/scoring.py:17-43 | Scores are returned iff the four weights read do not add up to 0. Otherwise the division raises. |
| Scoring.ComputeScoresRanges | backend/app/scoring.py:13-43 | Before rounding: the three scores lie in [50, 95], with resonance at most 50 + 238/1023·45. The ROAS lies in [1.2, 3.2]. With non-negative weights the trust index lies between its inputs' minimum and maximum. There are always three signals. |
| Store.UserById | backend/app/main.py:84 | A user is found iff one has that id, and it is that user. |
| Store.CurrentUser | backend/app/main.py:78-87 | No bearer token is a 401 "Not authenticated", raised by the `OAuth2PasswordBearer` dependency (main.py:66). A token that does not decode is a 401 "Invalid or expired token". An unknown user is a 401 "User not found". A token that decodes to the id of an existing user always succeeds with that user, and any success is that user. |
| Store.FindByEmail | backend/app/main.py:94 | Nothing is found iff no user has the email. Otherwise the user found has it. |
| Store.Login | backend/app/main.py:103-108 | Login succeeds iff a user has the email and the password verifies against their hash. The result is that user's id, else 400. |
| Store.FindAfterAdd | backend/app/main.py:94-100 | A user added under a new email is the one that email then finds. |
| Store.FindUnique | backend/app/main.py:94-100 | With unique emails, each user is the one their email finds. |
| Store.ListBriefs | backend/app/main.py:130-136 | Exactly the caller's briefs are listed: every entry is one of the caller's and every brief the caller owns appears. |
| Store.ListBriefsInTableOrder | backend/app/main.py:135-136 | When the table's ids increase, the listed ids increase too, so the rows keep the table's order and no brief is listed twice. |
| Store.NumberedIdsIncrease | backend/app/models.py:21-22 | Briefs numbered by their primary key in insertion order have increasing ids, so the ordering lemma applies to every reachable table. |
| Store.GetBrief | backend/app/main.py:138-147 | The brief is returned iff it exists and the caller owns it. Otherwise 404. |
| Store.GetBriefAgreesWithList | backend/app/main.py:130-147 | A brief is found by id exactly when it is listed. |
| Store.ListInfluencers | backend/app/main.py:167-173 | One output per influencer, in table order, with its fields. |
| Store.ComputeScoresScorer | backend/app/main.py:193-204 | With the real scorer, every influencer scores iff there is none or the brief's weights do not add up to 0. |
| Store.DefaultBriefIn | backend/app/schemas.py:4-9 | A `BriefIn` that gives only its brand: no keywords and 0.25 on each of the four KPIs. |
| Store.DefaultBriefScores | backend/app/schemas.py:7-9 | The default weights read exactly as no weights at all, add up to 1, and so every influencer scores under them. |
| Store.DefaultInfluencerIn | backend/app/schemas.py:14-16 | An `InfluencerIn` that gives only its handle gets the platform "instagram". |
| Store.PagePayloadIsDefault | backend/app/schemas.py:16 | The add-influencers page always sends the platform a bare handle would default to. |
| Store.Report | backend/app/main.py:193-217 | One report row per influencer. What each row holds is stated by `ReportShape`. |
| Store.Recorded | backend/app/main.py:195-204 | One score row per report row. |
| Store.RecordedMatchesReport | backend/app/main.py:195-217 | Each recorded score row holds its report row's influencer, brief and numbers, under consecutive ids. |
| Store.RecordedAppend | backend/app/main.py:195-204 | Recording one more report row appends one score row. |
| Store.ReportShape | backend/app/main.py:190-217 | One row per stored influencer, in store order, each with that influencer's id and handle, the requested brief id and its scores. |
| Store.Db.constructor | backend/app/models.py:11-53 | All tables start empty. |
| Store.Db.Signup | backend/app/main.py:92-101 | A registered email is refused with 400 and the users stay unchanged. Otherwise exactly one user is added and its id returned. |
| Store.Db.SaveBrief | backend/app/main.py:113-128 | The brief is stored with the caller as owner, and the payload is echoed with the new id. |
| Store.Db.AddInfluencers | backend/app/main.py:152-165 | One new row and one output per input, in order, with handle and platform preserved and no de-duplication. Earlier rows are unchanged. |
| Store.Db.OwnedBrief | backend/app/main.py:184-186 | The brief exists and the caller owns it. |
| Store.Db.ComputeReport | backend/app/main.py:178-219 | A missing or foreign brief gives `[]` and records nothing. A scoring failure gives 500 and records nothing. Otherwise the report is returned and exactly its score rows are appended. |
| Store.ScoreAll | backend/app/main.py:193-217 | The loop stages the report and its score rows, or nothing as soon as a scoring raises. |
| Store.ReportTwice | backend/app/main.py:195-218 | Two reports on the same brief are equal and append 2·|influencers| score rows, so the operation is not idempotent. |
| Api.FirstTruthyIndex | frontend/src/api.ts:40-45 | The first truthy candidate. |
| Api.OrChain | frontend/src/api.ts:40-45 | `a \|\| b \|\| … \|\| fallback` gives the first truthy candidate, else the fallback. |
| Api.GetApiError | frontend/src/api.ts:38-46 | The result is the response `detail`, else the response `message`, else the error's `message`, else the fallback. |
| Api.GetApiErrorDefault | frontend/src/api.ts:38 | `getApiError` with its default fallback "Something went wrong": the message is never empty, and is the fallback when no message is present. |
| Api.DetailOr | frontend/src/api.ts:38-46 | The pages' `detail \|\| fallback`. |
| Api.DetailOrRefinesGetApiError | frontend/src/api.ts:38-46 | The pages' pattern agrees with `getApiError` when `detail` is present, and when no message is present at all. |
| Api.AttachToken | frontend/src/api.ts:14-18 | `Authorization: Bearer <token>` is set iff the stored token is non-empty, with other headers unchanged. Otherwise the headers are untouched. |
| Api.Browser.RequestHeaders | frontend/src/api.ts:14-18 | A request carries the headers the current token gives. |
| Api.Browser.OnResponseError | frontend/src/api.ts:21-35 | A 401 off `/login` clears the token and goes to `/login`. Any other error leaves both unchanged. Every error is re-rejected as it came. |
| Text.Trim | frontend/src/pages/BriefPage.tsx:51 | The trimmed text is the middle of the input, with only whitespace removed around it, and has no whitespace at either end. |
| Text.Leading | frontend/src/pages/BriefPage.tsx:51 | The count of leading whitespace characters: all of them are whitespace, and the next character is not. |
| Text.Kept | frontend/src/pages/BriefPage.tsx:51 | The length without trailing whitespace: everything after it is whitespace, and the last kept character is not. |
| Text.SplitWhere | frontend/src/pages/BriefPage.tsx:57 | There is always at least one piece, and no piece holds a separator. |
| Text.JoinSplit | frontend/src/pages/BriefPage.tsx:57 | Joining the pieces of a split with the separator gives the text back. |
| Text.SplitJoin | frontend/src/pages/BriefPage.tsx:57 | Splitting at a set of separators undoes joining with any one of them, when no piece holds a separator. |
| Text.DropEmpty | frontend/src/pages/BriefPage.tsx:59 | Only non-empty strings are kept, and every non-empty one is. Order and repeats are stated by `DropEmptyAppend`. |
| Text.DropEmptyAppend | frontend/src/pages/BriefPage.tsx:59 | Filtering a concatenation is concatenating the filtered parts, so the kept strings stay in order with repeats. |
| Text.SplitAt | frontend/src/pages/BriefPage.tsx:57 | Any separator cuts the pieces in two: the pieces of the text before it, then those of the text after it. |
| Text.CleanPiecesAt | frontend/src/pages/BriefPage.tsx:57-59 | The non-empty trimmed pieces of text cut at a separator are those before it, then those after it. |
| Text.CleanPiecesOfPiece | frontend/src/pages/BriefPage.tsx:57-59 | Separator-free text gives its trim as its one piece, or none when the trim is empty. |
| Text.CleanPiecesAcrossRun | frontend/src/pages/AddInfluencersPage.tsx:15 | A non-empty run of separators cuts the pieces like a single separator. |
| Text.SeparatorsFirst | frontend/src/pages/AddInfluencersPage.tsx:15 | Separators in front of the text add no piece. |
| Text.Lower | backend/app/scoring.py:6 | Lower-casing keeps the length and maps each character. |
| Text.LowerChar | backend/app/scoring.py:6 | Upper-case ASCII letters move to lower case. Other characters stay. |

Arithmetic and proof helpers model no source lines and have no row: `Scoring.Pow2`, `Pow2Of22`, `SumAtLeast`, `SumAtMost`, `Scale`, `Cancel` and `Divide`, and the CSV reader's steps `ReportsCsv.ReadQuotedStep`, `ReadQuotedClose`, `DoubleQuotesHead`, `JoinCons` and `AfterMark`, the steps of the de-duplication order proof `Handles.PrefixOrder` and `AppendLastOrder`, and the one-step facts `Text.DropEmptyFirst`, `DropEmptyHead`, `DropEmptyOne`, `SplitCons`, `Regroup`, `RegroupFirst`, `PointwiseAppend`, `TrimAllAppend`, `CleanPiecesOfNothing`, `Briefs.TypedWithGap`, `Briefs.Concat3`, and the list-order steps `Store.TailIncreasing`, `ListedAfterHead` and `ConsIncreasing`. `Text.CleanPieces` is the split, trim and filter pipeline both parsers share; `Briefs.ParseKeywords` and `Handles.Tokens` are it at their separators.

## Left out

- Floating point: scores and weights are `real`s. `toFixed`, Python's `round` and the `{:.1f}` formatting are parameters whose behaviour is not modelled, so no rounding claim is made.
- `Number(val)` parsing in the brief form comes in already parsed as an optional real, where `None` stands for NaN. The weight sum adds the stored weights directly, since they are already numbers.
- Scoring.ComputeScores: its own contract states only when it raises. The ranges of its results are stated before rounding in `Scoring.ComputeScoresRanges`, because rounding is a parameter.
- Store.Db.ComputeReport: stated for any scorer passed in. `Store.ComputeScoresScorer` ties the failure case to `Scoring.ComputeScores`.
- Store.Db.ComputeReport: each score row is added to the session and all are committed once at the end; the model appends them together when the loop ends, since nothing reads them in between.
- Store.Db.AddInfluencers: the per-row `session.flush()` is the loop appending one numbered row per step. A database failure part-way, which would roll the transaction back, is not modelled.
- Network I/O, axios, and the race between overlapping fetches: a request's outcome is a `Response` value given to the method that handles it.
- JWT encoding and decoding are not modelled. `Store.CurrentUser` takes the token, or none when the request has none, and a `decode` parameter that gives the user id or none for a bad token.
- Bcrypt is a parameter: `Store.Db.Signup` takes the hash, and `Store.Login` takes the verifier.
- The clock is the `nowIso` parameter of `ReportsCsv.ExportCsv`.
- Navigation after creating a brief is the returned `reportOf`.
- `alert` and the Blob download are the `Download` value.
- Browser storage and location are fields of `Api.Browser`.
- Lower-casing and the whitespace class `\s` are restricted to ASCII.
- `parseHandles` splits on runs of separators. The model splits at each separator; the extra pieces are empty and the filter removes them, so the tokens are the same (`Handles.TokensAcrossRun`).
- The CSV escaper does not quote carriage returns. Section 2 of RFC 4180 would, and the model follows the code.
- The reader in `ReportsCsv` exists only to state the round trip. The page has no CSV reader.
- A `detail` that is not a string (FastAPI's validation errors) is not modelled. Only string details are.
- The comment in backend/app/scoring.py:20 says the expected ROAS ranges from about 0.2; the arithmetic gives 1.2, and the model follows the code.
- The login and signup pages, `/health`, `/ready`, routing, CORS and the SQL engine are not part of this model. The database is sequences numbered from 1, as SQLite assigns row ids when nothing is deleted.
- JSX rendering and hook scheduling are not modelled. The `sorted` memo is the function `Reports.ReportsView.Sorted`, recomputed from `rows`.
