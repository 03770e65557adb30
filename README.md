# AXLAP anomaly pipeline and terminal views, in Dafny

AXLAP collects network telemetry (Zeek connection logs, Arkime sessions) in
an Elasticsearch store. This project models two parts of it.

- **The machine-learning engine.**
  - `features.py` turns a `conn.log` document into 15 numeric features. It also reconciles a feature frame with the columns the model expects.
  - `train.py` pages through the store with a bounded scroll, builds the frame and persists a model and a scaler.
  - `predict.py` loads both, scores recent records and turns every record labelled −1 into an alert. The alerts go to a date-suffixed index.
- **The terminal interface's views.**
  - The `BaseView` refresh state machine, its drawing priority and its clipped text output.
  - The query and session views: paged result lists with a highlight, a query line and a search.
  - The protocol view: a list of protocol keys read from a terms aggregation.

The modules follow the source files:

| module | file | models |
|---|---|---|
| `PyValues` | `py_values.dfy` | Python values (`None`, numbers, text, lists, dicts); truthiness; `int()` on text and `str()` on integers; `s[:n]`; substring `in`; comprehensions that may raise |
| `Features` | `features.dfy` | `preprocess_conn_log_entry`, `create_feature_df`, `FEATURE_COLUMNS`; the `DataFrame` that `get_features_for_prediction` pads in place |
| `Train` | `train.py` → `train.dfy` | the configuration; the scroll loop of `fetch_data_from_es` (a method with loop invariants); `main` as a class method over the model directory |
| `Predict` | `predict.dfy` | `load_model_and_scaler`, `fetch_recent_data`, the alert loop, `post_alerts_to_es` over an alert store, and `main` |
| `Paging` | `paging.dfy` | the key codes, the page arithmetic and the non-Enter keys shared by the query and session views |
| `QueryViews`, `SessionViews`, `ProtocolViews` | `query_view.dfy`, `session_view.dfy`, `protocol_view.dfy` | the views as classes whose methods change their fields |
| `Views` | `base_view.dfy` | `BaseView` |

Each view class, the model directory and the alert store expose their fields as a value through `State()`; the `DataFrame` exposes its frame through `Value()`. Each method is proved to leave that value equal to a function of the old state and the inputs. The properties are lemmas about those functions.

Everything outside the program is a parameter:

- what the store answers (a search reply, a sequence of scroll pages, whether a call raises);
- whether the store answers `ping`;
- whether the artifact files exist or can be written;
- the anomaly detector (a score and a label per feature row);
- the clock (the current ISO timestamp, today's date, the times a refresh starts and ends).

## Model

| member | source | states |
|---|---|---|
| `PyValues.IntSetting` | src/ml_engine/train.py:13-17 | an unset setting takes its default; a set one is its text read as a signed decimal integer, and is `None` otherwise (narrower than `int()`; see Left out) |
| `PyValues.IntTextRoundTrip` | src/ml_engine/train.py:17 | `int(str(n)) == n`, so any integer setting written as decimal text is read back exactly |
| `PyValues.MapAllEach` | src/ml_engine/features.py:54 | a comprehension whose calls may raise succeeds iff every call does, and then holds each call's result at that call's position |
| `PyValues.Take` | src/tui/views/__init__.py:45 | `s[:n]` is a prefix of `s`: `n` long for `0 <= n < len(s)`, all of `s` for a larger `n`, and all but the last `-n` elements for a negative `n` |
| `PyValues.DigitsRoundTrip` | src/ml_engine/predict.py:98 | zero-padding a number to `w` digits loses nothing when it has at most `w` digits |
| `Features.FeatureColumnsDistinct` | src/ml_engine/features.py:64-71 | the model's column list names 15 distinct features |
| `Features.ToFloat` | src/ml_engine/features.py:9 | a missing, `None` or otherwise falsy duration becomes 0.0 before `float()` |
| `Features.ToInt` | src/ml_engine/features.py:10-13 | a falsy byte or packet count becomes 0 before `int()` |
| `Features.BuildFeaturesKeys` | src/ml_engine/features.py:6-48 | whatever raw fields were present, the feature dict's keys are exactly `NUMERICAL_FEATURES` in that order, each holding the value assigned to it |
| `Features.PreprocessKeys` | src/ml_engine/features.py:4-50 | every entry that preprocesses yields the 15 keys in the model's order and no others |
| `Features.FromPairsDistinct` | src/ml_engine/features.py:6-48 | assigning distinct keys one after another gives a dict with those keys in assignment order, each mapped to its value |
| `Features.FalsyCountsAreZero` | src/ml_engine/features.py:9-13 | each of the five raw fields that is absent or falsy is 0 in the counts the features are computed from |
| `Features.CountsCopied` | src/ml_engine/features.py:9-13 | the five counts appear unchanged among the features |
| `Features.ProtocolOneHot` | src/ml_engine/features.py:23-25 | each protocol flag is 0 or 1; at most one is 1; a flag is 1 iff `proto` is that protocol; all are 0 for any other protocol |
| `Features.Totals` | src/ml_engine/features.py:31-32 | the two totals are sums of the byte and packet counts |
| `Features.RatesGuarded` | src/ml_engine/features.py:34-43 | when duration is not positive, all four rates are 0; otherwise each rate is its count divided by the duration |
| `Features.ByteRatio` | src/ml_engine/features.py:45-48 | the ratio is sent bytes over total bytes when the total is positive and exactly 0.5 otherwise; with non-negative counts it lies in [0, 1] |
| `Features.SourceUnwrapped` | src/ml_engine/features.py:7 | `{'_source': s}` gives the same features as `s` itself |
| `Features.NonDictFails` | src/ml_engine/features.py:7-9 | an entry that is not a dict, or whose `_source` is not one, raises |
| `Features.VectorIsAssignments` | src/ml_engine/features.py:6-48 | the row the model sees, read in `FEATURE_COLUMNS` order, is the sequence of values assigned, in assignment order |
| `Features.ScenarioZeroDuration` | src/ml_engine/features.py:4-50 | 100 bytes over TCP in no time: zero rates, ratio 1, TCP flag set |
| `Features.ScenarioSymmetricUdp` | src/ml_engine/features.py:4-50 | a symmetric ten-second UDP exchange: rates of 100 B/s and 1 pkt/s, ratio 0.5 |
| `Features.MergeKeysAllPresent` | src/ml_engine/features.py:55 | the frame's columns do not grow when a record adds no new key |
| `Features.MergeKeysIntoEmpty` | src/ml_engine/features.py:55 | new distinct keys join the columns at the end, in order |
| `Features.ColumnsOfUniform` | src/ml_engine/features.py:55 | records that all have the same distinct keys give exactly those columns |
| `Features.FromRecordsUniform` | src/ml_engine/features.py:55-59 | such records give a well-formed frame with one row per record holding that record's values, and nothing left for `fillna` to fill |
| `Features.CreateFeatureDfRows` | src/ml_engine/features.py:52-60 | the frame is built iff every entry preprocesses; it then has one row per entry in input order, holding that entry's features; its columns are `NUMERICAL_FEATURES` (none for no entries); it is empty iff there are no entries |
| `Features.PadMissing` | src/ml_engine/features.py:76-78 | padding keeps the frame well formed and keeps its rows and existing columns and values; each missing column is appended, holding 0 in every row |
| `Features.ForPrediction` | src/ml_engine/features.py:73-79 | the result has exactly `FEATURE_COLUMNS` in order and one row per input row; existing values are unchanged and absent columns are 0 |
| `Features.ForPredictionIdempotent` | src/ml_engine/features.py:73-79 | reconciling twice is the same as reconciling once |
| `Features.ForPredictionOfReconciled` | src/ml_engine/features.py:73-79 | a frame already in `FEATURE_COLUMNS` order comes back unchanged |
| `Features.ModelInputRows` | src/ml_engine/features.py:52-79 | the model's input has the expected columns, and row `i` holds the features of entry `i` |
| `Features.DataFrame.constructor` | src/ml_engine/features.py:55 | a DataFrame holds the frame it was built from |
| `Features.DataFrame.AssignZeroColumn` | src/ml_engine/features.py:78 | `df[col] = 0` sets the column to 0 in every row and appends it when new |
| `Features.GetFeaturesForPrediction` | src/ml_engine/features.py:73-79 | the caller's frame is left padded with the missing columns, and the result is the reconciled frame |
| `Train.DefaultSettings` | src/ml_engine/train.py:13-17 | with nothing set, the cap is 100000; a cap set as the text of `n` is `n` |
| `Train.FetchDataFromEs` | src/ml_engine/train.py:19-75 | the loop returns what `FetchData` gives: the `_source` of every hit kept, or `[]` when a search, scroll, clear or extraction raises |
| `Train.DrainBound` | src/ml_engine/train.py:61-67 | a drain that starts at or below the cap ends at or below it |
| `Train.DrainPrefix` | src/ml_engine/train.py:56-67 | what the loop keeps is a prefix of the hits seen, in page order |
| `Train.DrainStopsAtEmptyPage` | src/ml_engine/train.py:61 | the loop stops at the first empty page, and nothing after that page changes the result |
| `Train.FetchBound` | src/ml_engine/train.py:44-67 | when the first page holds at most the cap, at most the cap documents come back |
| `Train.FetchFromStream` | src/ml_engine/train.py:56-72 | each returned document is the `_source` of the hit at the same position in the first page followed by the scroll pages |
| `Train.DrainTakesAll` | src/ml_engine/train.py:61-67 | when no scroll the loop requests raises, the loop keeps every hit up to the cap or the first empty page, whichever comes first; pages past that point may raise |
| `Train.FetchTakesAll` | src/ml_engine/train.py:56-72 | the fetch does not stop early. When the search page holds at most the cap, no scroll the loop requests raises (pages past the cap or the first empty page may), `clear_scroll` succeeds and each of the first min(cap, L) hits has a `_source`, the fetch returns the `_source` of each of those hits, where L counts the hits before the range runs out. Those hits are a prefix of the first page followed by the scroll pages |
| `Train.DrainRaisesAt` | src/ml_engine/train.py:61-64 | a scroll that raises leaves nothing kept once the loop reaches it, that is when every page before it had hits and the total stayed below the cap |
| `Train.FetchFailsEmpty` | src/ml_engine/train.py:56-75 | a raising search or clear gives `[]`, and so does a raising scroll `k` whenever the loop reaches it: the search page and the scrolls before `k` all had hits and stayed below the cap |
| `Train.ModelDir.constructor` | src/ml_engine/train.py:119-121 | a fresh model directory holds neither artifact |
| `Train.TrainMain` | src/ml_engine/train.py:77-123 | the run's outcome and the artifacts written are those of `TrainRun` |
| `Train.AbortsWriteNothing` | src/ml_engine/train.py:77-98 | an artifact is written only by a run that trains, or one that fails part-way through writing |
| `Train.NoFetchWithoutConnection` | src/ml_engine/train.py:80-86 | an unreachable store ends the run before any fetch: whatever the store holds, the outcome is the same |
| `Train.EmptyFetchAborts` | src/ml_engine/train.py:89-92 | the run stops for lack of data iff the fetch gives `[]`, whether no hits or an exception caused it |
| `Train.EmptyFrameUnreachable` | src/ml_engine/train.py:95-98 | the empty-frame exit is never taken: a non-empty fetch always builds a non-empty frame |
| `Train.TrainedOnFetchedRecords` | src/ml_engine/train.py:95-121 | a completed run writes model and scaler, both fitted on the reconciled frame, which has one row per fetched record |
| `Train.ModelWrittenFirst` | src/ml_engine/train.py:119-121 | the scaler is written only together with the model; a failed write leaves the scaler as it was |
| `Predict.LoadModelAndScaler` | src/ml_engine/predict.py:18-24 | both artifacts are returned iff both exist; otherwise nothing is returned |
| `Predict.FetchRecentData` | src/ml_engine/predict.py:26-65 | one search gives its hits, and a raising search gives `[]` |
| `Predict.AnomalyIndicesExact` | src/ml_engine/predict.py:152-153 | the anomaly positions are in range and strictly increasing, and a record is among them iff its label is −1 |
| `Predict.BuildAlerts` | src/ml_engine/predict.py:151-176 | the loop produces one alert per −1 label, in record order, each built from its record and score |
| `Predict.AlertCarriesRecord` | src/ml_engine/predict.py:154-176 | alert `k` is for a record labelled −1. It carries that record's score, the run's timestamp, type `ConnectionAnomaly`, the record and its uid. Its description names the uid, or `N/A` when the record has none |
| `Predict.AlertsMatchLabels` | src/ml_engine/predict.py:141-176 | there is exactly one alert per record the detector labels −1, none for the others, and each is built from that record and its score |
| `Predict.IndexNameMatchesTemplate` | src/ml_engine/predict.py:74-99 | the daily index is `axlap-ml-alerts-YYYY.MM.DD` (26 characters) and so matches the template's pattern; distinct dates give distinct indices |
| `Predict.ActionsFor` | src/ml_engine/predict.py:101-106 | one action per alert, in alert order, all aimed at the same index |
| `Predict.AlertStore.constructor` | src/ml_engine/predict.py:67-112 | a fresh store holds no template and no documents |
| `Predict.PostAlertsToEs` | src/ml_engine/predict.py:67-112 | the store afterwards is what `Posted` gives |
| `Predict.PostedShape` | src/ml_engine/predict.py:67-112 | no alerts changes nothing. The template is created only when absent, and is the only one ever created. A successful bulk appends exactly one document per alert, in order, to today's index; a failed one appends none. Earlier documents are kept |
| `Predict.PreprocessedAreDicts` | src/ml_engine/predict.py:135-136 | records that preprocess are dicts, so the alert loop can read their fields |
| `Predict.PredictMain` | src/ml_engine/predict.py:115-183 | the run's outcome and the store afterwards are those of `PredictRun` |
| `Predict.AlertAndPost` | src/ml_engine/predict.py:141-181 | the scoring, alert and posting stage's outcome and store are those of `AlertStage` |
| `Predict.OnlyAlertsWrite` | src/ml_engine/predict.py:115-183 | the store changes only in a run that found anomalies; every early exit, and a run with no anomalies, leaves it alone |
| `Predict.MissingArtifactsStopEarly` | src/ml_engine/predict.py:117-119 | a missing model or scaler ends the run before connecting or fetching: whatever the store would answer, nothing is posted |
| `Predict.EmptyFetchPostsNothing` | src/ml_engine/predict.py:130-133 | no recent records, or a raising search, ends the run without posting |
| `Predict.EmptyFeaturesUnreachable` | src/ml_engine/predict.py:136-139 | the empty-features exit is never taken after a non-empty fetch |
| `Paging.TotalPagesIsCeiling` | src/tui/views/query_view.py:43 | the page count is the ceiling of results over page size, and 0 exactly when there are no results |
| `Paging.PageWindowInRange` | src/tui/views/query_view.py:29-31 | on an existing page the listed positions are in range, at least one and at most a page; position `i` is listed iff the page is `i / 10` |
| `Paging.NavKeyKeepsValid` | src/tui/views/query_view.py:57-74 | no key but Enter can put the highlight off the page or the page out of range |
| `Paging.UpDownClamp` | src/tui/views/query_view.py:57-60 | Up lowers the highlight but not below 0. Down raises it but not past 9, however many rows the page holds. Neither touches the query or the page |
| `Paging.PageKeys` | src/tui/views/query_view.py:61-67 | both page keys reset the highlight. Page Up stops at page 0. Page Down stops at the last page, which is −1 when there are no results |
| `Paging.EditKeys` | src/tui/views/query_view.py:68-74 | Backspace (or DEL) drops the last code point and does nothing on an empty query. Any other code point is appended. A key `chr()` rejects changes nothing |
| `Paging.CodesAppend` | src/tui/views/query_view.py:98 | appending text appends its code points |
| `QueryViews.ArkimeQueryExtends` | src/tui/views/query_view.py:94-101 | a query changes iff it is bare (no space, `<`, `>`, `:`, `firstPacket`, `lastPacket`); a bare query keeps its text and gains the window clause |
| `QueryViews.ArkimeQueryIdempotent` | src/tui/views/query_view.py:94-101 | a rewritten query is no longer bare, so rewriting again changes nothing |
| `QueryViews.ExecutedResets` | src/tui/views/query_view.py:82-110 | a search resets the page and highlight and keeps the query. Results come only from a search of the rewritten query. An empty query prompts without searching. A raising search leaves no results and reports `Error: ` and its text |
| `QueryViews.ExecutedAsksRewritten` | src/tui/views/query_view.py:94-103 | the search sees only the rewritten query |
| `QueryViews.AfterKeyKeepsValid` | src/tui/views/query_view.py:52-74 | every key, Enter included, keeps the highlight within the page's ten slots (possibly below its last row) and the page in range |
| `QueryViews.QueryView.constructor` | src/tui/views/query_view.py:11-16 | a fresh view has no query, no results, highlight 0 and page 0 |
| `QueryViews.QueryView.VisibleRange` | src/tui/views/query_view.py:29-31 | the rows `draw` lists start at the page's first position, end within the results and hold at most a page; a position is listed iff it belongs to the current page |
| `QueryViews.QueryView.ExecuteQuery` | src/tui/views/query_view.py:82-110 | the fields afterwards are those of `Executed` |
| `QueryViews.QueryView.HandleInput` | src/tui/views/query_view.py:52-74 | the fields afterwards are those of `AfterKey` |
| `SessionViews.AfterKeyKeepsValid` | src/tui/views/session_view.py:52-74 | every key, Enter included, keeps the highlight within the page's ten slots (possibly below its last row) and the page in range |
| `SessionViews.ExecutedAsTyped` | src/tui/views/session_view.py:82-93 | a search resets the page and highlight and searches the query exactly as typed. Success lists the sessions found and reports `Found N sessions.`. A raise lists none and reports `Error: ` and its text |
| `SessionViews.SessionView.constructor` | src/tui/views/session_view.py:5-15 | a fresh view has no query, no results, highlight 0 and page 0 |
| `SessionViews.SessionView.VisibleRange` | src/tui/views/session_view.py:29-30 | the rows `draw` lists are in range, at most a page, and exactly those of the current page |
| `SessionViews.SessionView.ExecuteQuery` | src/tui/views/session_view.py:82-93 | the fields afterwards are those of `Executed` |
| `SessionViews.SessionView.HandleInput` | src/tui/views/session_view.py:52-74 | the fields afterwards are those of `AfterKey` |
| `ProtocolViews.ExtractResponseOf` | src/tui/views/protocol_view.py:70-72 | a terms aggregation's response reads back as its bucket keys, in bucket order |
| `ProtocolViews.MissingAggregation` | src/tui/views/protocol_view.py:70-75 | a response without `aggregations`, or whose `aggregations` lacks `protocols`, holds no list |
| `ProtocolViews.FetchedKeepsSelection` | src/tui/views/protocol_view.py:55-78 | fetching never moves the selection. A non-empty list is always the keys of the response's buckets. A well-formed response reports `Found N protocols.` |
| `ProtocolViews.AfterKeyClamps` | src/tui/views/protocol_view.py:37-47 | an empty list ignores every key. Up and Down keep a selection that is on the list on it. Down brings a selection beyond the end back to the last entry; Up moves it one step nearer, leaving it beyond the end until it gets there. No key changes the list or the message. Enter raises on a non-empty list |
| `ProtocolViews.ProtocolView.constructor` | src/tui/views/protocol_view.py:4-12 | a new view starts empty and fetches at once |
| `ProtocolViews.ProtocolView.FetchProtocols` | src/tui/views/protocol_view.py:55-78 | the fields afterwards are those of `Fetched` |
| `ProtocolViews.ProtocolView.Update` | src/tui/views/protocol_view.py:49-53 | every tick fetches again |
| `ProtocolViews.ProtocolView.HandleInput` | src/tui/views/protocol_view.py:37-47 | the fields afterwards, and whether the key raises, are those of `AfterKey` |
| `Views.RefreshIntervalSetting` | src/tui/views/__init__.py:10 | the refresh interval defaults to 5 seconds |
| `Views.RefreshedSettles` | src/tui/views/__init__.py:72-89 | after a refresh the view is not loading and records the finishing time. A successful fetch sets the data and clears the error. A raising fetch drops the data and keeps the exception's text. A view without a fetch is unchanged |
| `Views.UpdateGate` | src/tui/views/__init__.py:65-70 | `update` refreshes iff more than the interval has passed, no refresh is under way and the view can fetch; otherwise nothing changes |
| `Views.RunStaysSettled` | src/tui/views/__init__.py:41-86 | whatever refreshes and ticks reach a view, it is never loading between calls and never holds an error beside data; so `draw` never takes its "Loading..." branch |
| `Views.DrawBranchCases` | src/tui/views/__init__.py:41-50 | an error is shown iff its text is non-empty, as `ERROR: ` plus a prefix of it. The prefix has at most `width - 3` characters, or loses the last `3 - width` in a narrower area. Otherwise the content is shown iff there is data, else the hint |
| `Views.SafeTextClips` | src/tui/views/__init__.py:91-104 | text is written iff the position lies in the window with a column to spare. It is unchanged when it fits `w - x - 1` columns; otherwise it is its first `w - x - 1` characters followed by `..` |
| `Views.BaseView.constructor` | src/tui/views/__init__.py:4-17 | a new view has no data, no error, is not loading, was last refreshed at time 0, and reads its interval from the configuration |
| `Views.BaseView.ForceRefreshData` | src/tui/views/__init__.py:72-89 | the fields afterwards are those of `Refreshed` |
| `Views.BaseView.Update` | src/tui/views/__init__.py:65-70 | the fields afterwards are those of `Updated` |
| `Views.BaseView.Draw` | src/tui/views/__init__.py:29-52 | the branch drawn is the one `DrawBranch` picks for the fields |

## Left out

- Model fitting and scoring are not modelled. This covers `StandardScaler` and `IsolationForest` (`fit`, `decision_function`, `predict`, `n_jobs`), because they are floating-point library numerics. The model takes a detector giving a score and a label per feature row. An artifact records only the frame it was fitted on.
- File I/O is not modelled: `joblib.dump`/`load`, `os.path.exists` and `os.makedirs` become booleans and an in-memory model directory. A file that exists but fails to load is not modelled.
- The Elasticsearch, Arkime and OpenCTI clients are not modelled. Their answers are parameters: a reply, scroll pages, whether `clear_scroll`, `put_template` or `bulk` raises, and a search function for the views. `exists_template` raising and partial bulk failures are not modelled. The bodies of the range queries (time windows, `_source` lists, `sort`) are not modelled either.
- Wall-clock reads are parameters: `datetime.utcnow`, `isoformat`, `time.time`. One timestamp stands for all the alerts of a run, where the source reads the clock once per alert.
- Views.BaseView.constructor: a `refresh_interval` that `int()` rejects (such as `5s`) makes `__init__` raise `ValueError`; the constructor requires a readable setting, so that failed construction is not modelled. `Views.RefreshIntervalSetting` gives `None` for it.
- Predict.IndexNameMatchesTemplate: only years 1000-9999 are covered, where `%Y` writes four digits.
- Logging and `print` are not modelled.
- Curses drawing is not modelled: windows, colours, `addstr` raising at the window's edge, and the subclasses' `_draw_content`. The dashboard and plugin views and the application loop are not part of this model.
- Features.ToFloat: only text made of an optional sign and decimal digits is read. `float()` also accepts surrounding whitespace, underscores between digits, decimal points, exponents, `inf` and `nan`; the model reads those as a raise. A Python float becomes `real` with no IEEE rounding.
- PyValues.IntSetting, Features.ToInt: only text made of an optional sign and decimal digits is read. `int()` also accepts surrounding whitespace and underscores between digits (`" 5000"`, `"1_000"`); the model reads those as a raise, so such an `ML_MAX_TRAINING_SAMPLES` ends the training run as a bad setting and such a `refresh_interval` stops the view. Like `int()`, both reject decimal points and exponents. `int()` of a float truncates toward zero.
- Predict.Show: a float, list or dict in a record's `uid` makes the description `None`, because Python's text for them is not modelled. The other fields are carried as values.
- ProtocolViews.Fetched: the text Python gives a `TypeError` or `KeyError` raised while reading a malformed response is a parameter.
- Features.CreateFeatureDf: pandas' column typing (integer columns, `NaN` before `fillna`) is not modelled; every value is a number.
- `draw`'s page footer and the highlight row are not modelled; the list window they use is.
- Surrogate code points are accepted by `chr()` and appended like any other; terminal encoding is not modelled.
