# ClearSkyIQ / harmony-api in Dafny

A verified model of the logic in ClearSkyIQ, a Next.js front end for NASA TEMPO
air-quality visualizations, and in harmony-api, its FastAPI backend in front of
NASA Harmony. The model covers:

- **The TEMPO visualization page** (`TempoVisualization.tsx`). Its React state
  is the class `TempoVisualization.Page`, with one field per `useState`, and its
  handlers are methods on that class:
  - the preload;
  - `startParallelProcessing`, `checkJobStatus` and `handleSubmit`;
  - the poll tick;
  - `testConnection` and `handleRetry`;
  - the tab and input handlers.

  Their pure decisions live in `TempoForm`:
  - validating the times;
  - reading the bounding-box field, strictly on the parallel path and
    leniently on the `all_three` path;
  - building the request bodies;
  - turning the route's answers into the stored result, with the `||`
    fallbacks;
  - one step of job polling;
  - choosing the panel to render.

  Each `fetch` the handlers await is a parameter holding what it delivers: a
  network error, or a status code and a decoded body. Each running
  `setInterval` poller is an entry of `Page.polls`, and a timer firing is a call
  to `Page.Tick`.
- **The route handlers** (`Forwarders`). `POST /api/tempo/visualize/all` and
  `POST /api/tempo/visualize/parallel` forward the inbound body once. They pass
  an ok answer through with status 200 and turn any failure into a 500
  envelope. `GET /api/health` does the same against a fixed URL, but fails with
  503 and an "unhealthy" body.
- **The front-end configuration** (`Config`): environment values with fallbacks,
  the endpoint URLs and the default headers.
- **The data description panel** (`DataDescription`): the label derived from a
  variable name, and the geographic-area line derived from a bounding box.
- **The backend** (`HarmonyApi`):
  - credential gating of the shared Harmony client;
  - the bearer-token check;
  - the two health endpoints;
  - the `/tempo/data` handler's own logic: `Z` normalisation, the optional
    spatial filter, the loop that summarises the downloaded files, and the
    response shape.
- **The persistent cache** (`Cache.PersistentCache`). This is a keyed table with
  a creation time, access count and last-access time per row. It has
  time-to-live expiry, access counting, and eviction of the least recently
  accessed rows once the table is full. The SQLite table is a `map` field, and
  the clock is an integer parameter.

`Text` holds the JavaScript and Python string operations these depend on:
`split`, `trim`, `replace`, `indexOf`, number formatting, and `||` on strings.
`Http` holds the JSON and fetch-outcome types.

Some behaviours of the source are kept as written and proved:
- On the `all_three` path, the bounding box is sent whenever the field splits
  into four parts, even when a part is not a number. The parallel path rejects
  that box.
- A failed parallel start sets its error but leaves the page loading, so the error is never shown.
- A backend count of 0 falls back to the number of visualizations.
- An Invalid Date passes the time-order check.
- Starting a new single-plot job does not stop the earlier pollers.
- A completed job without `results` stops its poller and clears loading
  without storing a result. In the source, reading `status.results[...]`
  throws there.
- An ok answer whose `success` is false is still relayed with status 200.

## Model

| member | source | states |
|---|---|---|
| TempoForm.ValidateTimes | clearskyiq/src/app/components/TempoVisualization.tsx:266-275 | "Please select both start and end times" exactly when a time is empty. "End time must be after start time" exactly when both are set and the parsed start is not before the end. An Invalid Date passes. |
| TempoForm.ParseParts | clearskyiq/src/app/components/TempoVisualization.tsx:181 | One parsed value per comma-separated part (commas + 1), each the parse of the trimmed part. |
| TempoForm.StrictBbox | clearskyiq/src/app/components/TempoVisualization.tsx:179-186 | A blank or all-white-space field sends no box and raises no error. The format error is raised exactly when the field is not blank and lacks four parts that all parse. Otherwise the four numbers are sent, in order. |
| TempoForm.LenientBbox | clearskyiq/src/app/components/TempoVisualization.tsx:290-293 | A box is attached exactly when the field is non-empty and has three commas, carrying each part's parse with no NaN check. |
| TempoForm.StrictAcceptedIsSentLeniently | clearskyiq/src/app/components/TempoVisualization.tsx:179-186 | Every box the parallel path accepts, the `all_three` path sends with the same four numbers. |
| TempoForm.LenientSendsWhatStrictRejects | clearskyiq/src/app/components/TempoVisualization.tsx:290-293 | A four-part box with a non-numeric part is rejected by the parallel path but sent, with a NaN, by the `all_three` path. |
| TempoForm.WithSeconds | clearskyiq/src/app/components/TempoVisualization.tsx:109-110 | The time is sent as the input's value followed by `:00`. |
| TempoForm.ParallelRequestOf | clearskyiq/src/app/components/TempoVisualization.tsx:177-198 | The parallel request fails exactly when the box is rejected, with the format error. Otherwise it carries the times with seconds, the plot types, the single variable, the TEMPO collection, and the strict box (omitted when none). |
| TempoForm.AllThreeRequestOf | clearskyiq/src/app/components/TempoVisualization.tsx:281-293 | The `all_three` request carries plot type `all_three`, the variable, the collection and the times with seconds. Its box is present exactly when the lenient rule attaches one. It then holds four values, and the i-th is `parseFloat` of the i-th comma-separated part, trimmed. |
| TempoForm.PreloadRequestOf | clearskyiq/src/app/components/TempoVisualization.tsx:108-115 | The preload sends the form's start and end times, each followed by `:00`. It always sends the default box -150, -40, 14, 65, whatever the form's field holds. |
| TempoForm.NotOkText | clearskyiq/src/app/components/TempoVisualization.tsx:159-160 | A non-ok answer's error is its non-empty `message`, otherwise "API responded with status N". |
| TempoForm.OrCount | clearskyiq/src/app/components/TempoVisualization.tsx:140-141 | A count that is absent or 0 is replaced by the fallback. |
| TempoForm.AllThreeShown | clearskyiq/src/app/components/TempoVisualization.tsx:307-322 | The stored result keeps the visualizations and the form's variable. Success and total counts fall back to the number of visualizations, and are 0 only when there are none. `job_id` falls back to the default and is then never empty. Files processed is the backend's count, or 1 when that is absent or 0 (`files_processed \|\| 1`), so it is at least one. The message counts the success count. The box falls back to the given default. |
| TempoForm.AllThreeOutcome | clearskyiq/src/app/components/TempoVisualization.tsx:303-332 | A result is stored exactly when the answer is ok and decodes with `success`, `data` and `visualizations`. Otherwise the error is, case by case: the network error; the backend message or status line; the decode error; or the body's message, falling back to the fixed text. |
| TempoForm.PreloadOutcome | clearskyiq/src/app/components/TempoVisualization.tsx:102-161 | A health fetch that fails gives its own error, and an answered non-ok health check gives "API is not available", both before the sample request. Otherwise the outcome is the `all` route's, with `preload` and the default box as fallbacks, so a stored preload always has a box and an id. |
| TempoForm.SubmitOutcome | clearskyiq/src/app/components/TempoVisualization.tsx:200-226 | The job starts exactly when the answer is ok and says `success`, and the outcome is then its `job_id`. Otherwise the error is, case by case: the network reason; the backend message or the status line; the decode error of an ok answer; or the body's message, falling back to "Failed to start parallel processing". |
| TempoForm.ParallelOutcome | clearskyiq/src/app/components/TempoVisualization.tsx:177-230 | A rejected box is the outcome and nothing is submitted. Otherwise the outcome is the parallel route's. |
| TempoForm.SubmissionOf | clearskyiq/src/app/components/TempoVisualization.tsx:265-337 | Validation errors reject the submission before any request. Otherwise `all_three` goes to the `all` route (fallback id `all_three`, no default box) and any other plot type starts a parallel job. |
| TempoForm.StatusOf | clearskyiq/src/app/components/TempoVisualization.tsx:233-253 | A status is returned exactly when the answer is ok and decodes, and it is then the decoded body. |
| TempoForm.ImageOf | clearskyiq/src/app/components/TempoVisualization.tsx:352 | The plot's image, or `''` when the plot or its image is missing or empty. |
| TempoForm.PollStep | clearskyiq/src/app/components/TempoVisualization.tsx:339-364 | Polling continues exactly when no status arrived or it is neither `completed` nor `failed`. `failed` yields the status error or "Job failed", never empty. `completed` yields the plot's image, or a stop without a result when `results` is absent. |
| TempoForm.PlotName | clearskyiq/src/app/components/TempoVisualization.tsx:83-87 | The three known plot types have their display names; any other reads `undefined`. |
| TempoForm.PolledShown | clearskyiq/src/app/components/TempoVisualization.tsx:346-358 | A completed poll stores a single image with the job id, the captured variable and one file processed. |
| TempoForm.ConnectionOutcome | clearskyiq/src/app/components/TempoVisualization.tsx:380-399 | The health message is stored exactly when the answer is ok and decodes. A non-ok answer gives the status line, an ok answer that fails to decode gives the decode error, and a network failure gives its reason. |
| TempoForm.PanelFor | clearskyiq/src/app/components/TempoVisualization.tsx:469-640 | Help shows only the help page. Explore shows loading while loading or preloading, Visualize only while loading. The empty state shows exactly when not loading and still initial. Otherwise the results show, with the error banner exactly when the error is a non-empty string. |
| TempoVisualization.PollsAfter | clearskyiq/src/app/components/TempoVisualization.tsx:335-339 | Exactly one poller is added, for the returned job with the form's plot type and variable, when a truthy job id came back. Otherwise the pollers are unchanged. |
| TempoVisualization.Page.constructor | clearskyiq/src/app/components/TempoVisualization.tsx:46-81 | The initial state: not loading, initial, preloading, no result or error, no retries, Explore tab, default form, no pollers. The first view is the preloading state. |
| TempoVisualization.Page.View | clearskyiq/src/app/components/TempoVisualization.tsx:469-640 | The help page shows exactly on the Help tab. On the other tabs, loading shows exactly while loading, or while preloading on Explore. The empty state shows only in the initial state. The results panel shows the stored result, and only after the initial state. |
| TempoVisualization.Page.SelectTab | clearskyiq/src/app/components/TempoVisualization.tsx:436-456 | A tab button selects its tab and changes nothing else. |
| TempoVisualization.Page.ChangeInput | clearskyiq/src/app/components/TempoVisualization.tsx:89-92 | The named form field takes the new value and the others keep theirs. |
| TempoVisualization.Page.Preload | clearskyiq/src/app/components/TempoVisualization.tsx:95-172 | The sample request is sent only after an ok health check. Success stores the result, leaves the initial state and resets the box field to the default. Any failure is swallowed: the error is cleared and the empty state returns. Preloading and its message end in every case. |
| TempoVisualization.Page.StartParallelProcessing | clearskyiq/src/app/components/TempoVisualization.tsx:176-231 | The request is built from the submitted form. On success the job id is returned and the job is shown as queued (status `queued`, progress 0, empty lists and results). On failure the error is set, nothing is returned, and the job fields are untouched. |
| TempoVisualization.Page.CheckJobStatus | clearskyiq/src/app/components/TempoVisualization.tsx:233-253 | A status that arrived is stored and returned. A failed fetch returns nothing and leaves the stored status as it was. |
| TempoVisualization.Page.HandleSubmit | clearskyiq/src/app/components/TempoVisualization.tsx:255-372 | Ends in the `Submitted` state for the submission `SubmissionOf` decides. A rejection sets its error and stops loading with no request sent. `all_three` sends its request and stores the result or the error. A parallel start stores the queued job and adds a poller. A failed parallel start sets its error but leaves `isLoading` true, so the loading panel stays on screen (outside the Help tab) and the error is never shown. Earlier pollers always stay. |
| TempoVisualization.Page.SubmitAllThree | clearskyiq/src/app/components/TempoVisualization.tsx:277-333 | Sends the `all_three` request and stores its result or sets its error. Loading ends either way. |
| TempoVisualization.Page.SubmitSingle | clearskyiq/src/app/components/TempoVisualization.tsx:333-339 | Starts the job, and on a truthy id shows "Generating <plot name>..." and adds the poller. |
| TempoVisualization.Page.Tick | clearskyiq/src/app/components/TempoVisualization.tsx:339-364 | A tick without a terminal status changes nothing but the stored status. A terminal tick removes exactly that poller and clears loading. It then stores the image (completed) or sets the error (failed). |
| TempoVisualization.Page.TestConnection | clearskyiq/src/app/components/TempoVisualization.tsx:374-405 | Stores the health message, or sets the error. Loading ends in every case. |
| TempoVisualization.Page.HandleRetry | clearskyiq/src/app/components/TempoVisualization.tsx:407-415 | Counts exactly one retry. It resubmits exactly when a result is stored, and then ends in the same `Submitted` state as `handleSubmit` on the form as it was. Otherwise it tests the connection: it stores the health message or sets the error, ends loading, and leaves the pollers and job untouched. |
| Cache.Unexpired | harmony-api/persistent_storage.py:135-146 | The start-up sweep keeps exactly the rows that a read would not find expired, unchanged. |
| Cache.EvictionCount | harmony-api/persistent_storage.py:124-130 | A full table loses `count - max_size + 10` rows, or every row when there are fewer. |
| Cache.LeastRecentKeys | harmony-api/persistent_storage.py:126-130 | `ORDER BY last_accessed ASC LIMIT n` yields min(count, n) distinct keys of the table, none accessed after a key left out. |
| Cache.OldestExists | harmony-api/persistent_storage.py:127 | Every non-empty set of rows has one accessed no later than all others. |
| Cache.EvictionLeavesRoom | harmony-api/persistent_storage.py:124-133 | After eviction at most `max_size - 1` rows remain. |
| Cache.WriteKeepsBound | harmony-api/persistent_storage.py:95-101 | After a write the table holds at most `max_size` rows, whether the key was new or replaced. |
| Cache.WriteThenRead | harmony-api/persistent_storage.py:90-102 | The written key survives eviction and reads back its value until the time-to-live has passed. |
| Cache.ReadCountsOneAccess | harmony-api/persistent_storage.py:79-82 | A read of a live row adds exactly one to the total access count. |
| Cache.TotalAccessesRemove | harmony-api/persistent_storage.py:167-168 | The access total is the same whichever row is counted first. |
| Cache.TotalAccesses | harmony-api/persistent_storage.py:167-168 | `SUM(access_count) or 0`: 0 for an empty table, and at least each row's own count. |
| Cache.IsEviction | harmony-api/persistent_storage.py:118-133 | The victims are rows of the table. Below `max_size` none goes. Otherwise either every row goes or exactly `max_size - 10` remain. |
| Cache.PersistentCache.constructor | harmony-api/persistent_storage.py:19-33 | Opening the cache keeps only the unexpired stored rows, with a time-to-live of `ttl_hours` hours. |
| Cache.PersistentCache.Get | harmony-api/persistent_storage.py:59-88 | A missing key reads as nothing and changes nothing. An expired row is deleted, alone, and reads as nothing. A live row returns its value, gains one access and is marked accessed now, and nothing else changes. |
| Cache.PersistentCache.Set | harmony-api/persistent_storage.py:90-105 | Evicts as `_evict_if_needed` may, then inserts or replaces the row with fresh bookkeeping (created now, 0 accesses). The table then holds at most `max_size` rows. |
| Cache.PersistentCache.Delete | harmony-api/persistent_storage.py:107-116 | Only the key's row goes. |
| Cache.PersistentCache.EvictIfNeeded | harmony-api/persistent_storage.py:118-133 | Below `max_size` nothing changes. At or above it, exactly the chosen least-recently-accessed rows go, as many as `EvictionCount` says. |
| Cache.PersistentCache.DeleteEach | harmony-api/persistent_storage.py:132-133 | The deletion loop removes exactly the listed keys. |
| Cache.PersistentCache.CleanupExpired | harmony-api/persistent_storage.py:135-146 | Removes exactly the rows created before `now - ttl`, the same boundary a read uses. |
| Cache.PersistentCache.Clear | harmony-api/persistent_storage.py:148-157 | Every row goes. |
| Cache.PersistentCache.Stats | harmony-api/persistent_storage.py:159-180 | `total_entries` is the row count and `total_accesses` is the sum of access counts (0 when empty). |
| Config.Load | clearskyiq/src/lib/config.ts:5-8 | Each value is the environment's when it is set and non-empty, else `http://localhost:8000` / `bumbumbakudan`. Neither is ever empty. |
| Config.Url | clearskyiq/src/lib/config.ts:10-18 | Every fixed endpoint is the base URL followed by its literal path. |
| Config.VisualizeStatus | clearskyiq/src/lib/config.ts:15 | The base URL, `/tempo/visualize/status/`, then the job id verbatim. |
| Config.VisualizeResults | clearskyiq/src/lib/config.ts:16 | The base URL, `/tempo/visualize/results/`, then the job id verbatim. |
| Config.DefaultHeaders | clearskyiq/src/lib/config.ts:20-23 | JSON content type, and `Authorization` is `Bearer ` followed by the token. |
| Forwarders.Forward | clearskyiq/src/app/api/tempo/visualize/all/route.ts:3-31 | The parsed inbound body is sent unchanged in exactly one call, and an unparseable one sends nothing. Status 200 happens exactly when the answer is ok and decodes, and carries the answer verbatim. Every other case is a 500 failure envelope. For a non-ok answer the error is the TypeError text when the body is JSON `null`, and otherwise the backend message or the status line. An ok answer that fails to decode gives its parse error, and a failed fetch its network reason. |
| Forwarders.NotOkError | clearskyiq/src/app/api/tempo/visualize/all/route.ts:13-16 | A non-ok answer's error. A `null` body gives "Cannot read properties of null (reading 'message')". Any other body gives its non-empty `message`, or else "API responded with status N". |
| Forwarders.PostAll | clearskyiq/src/app/api/tempo/visualize/all/route.ts:7-11 | Forwards to the configured `/tempo/visualize/all` with the default headers. Failures say "Failed to connect to Harmony API". |
| Forwarders.PostParallel | clearskyiq/src/app/api/tempo/visualize/parallel/route.ts:7-30 | Forwards to the configured `/tempo/visualize/parallel`. Failures say "Failed to start parallel visualization". |
| Forwarders.OkAnswerRelayedVerbatim | clearskyiq/src/app/api/tempo/visualize/all/route.ts:18-20 | An ok answer is relayed with status 200 whatever its own `success` field says. |
| Forwarders.GetHealth | clearskyiq/src/app/api/health/route.ts:1-30 | One GET to the fixed URL with no token. Status 200 happens exactly when the answer is ok and decodes, and passes it through. Everything else is a 503 "unhealthy" body. Its error is the status line for a non-ok answer (the body is never read), the parse error for an ok answer that fails to decode, or the network reason. |
| Forwarders.HealthUrlIsDefault | clearskyiq/src/app/api/health/route.ts:3 | The health target is the default configuration's health URL, whatever the environment holds. |
| DataDescription.CapitalizeFrom | clearskyiq/src/app/components/TempoVisualization/DataDescription.tsx:46 | Each character is upper-cased exactly when it is a word character with no word character before it. |
| DataDescription.CapitalizeWords | clearskyiq/src/app/components/TempoVisualization/DataDescription.tsx:46 | `\b\w` capitalisation keeps the length, upper-cases exactly the characters that start a word, and leaves all others as they were. |
| DataDescription.UpperWordChar | clearskyiq/src/app/components/TempoVisualization/DataDescription.tsx:46 | Upper-casing a word character changes only `a`-`z`. |
| Text.ReplaceFirst | clearskyiq/src/app/components/TempoVisualization/DataDescription.tsx:46 | `replace` with a string pattern: nothing changes when the pattern is absent. Otherwise only its first occurrence is replaced, and the text before and after it is kept. |
| DataDescription.VariableLabel | clearskyiq/src/app/components/TempoVisualization/DataDescription.tsx:46 | The label has the length of the name with its first `product/` removed, and no underscore. |
| DataDescription.ReplaceFirstLength | clearskyiq/src/app/components/TempoVisualization/DataDescription.tsx:46 | Removing `product/` shortens the name by eight exactly when it occurs, and changes nothing otherwise. |
| DataDescription.VariableLabelChars | clearskyiq/src/app/components/TempoVisualization/DataDescription.tsx:46 | Character by character, the label is the name with its first `product/` removed, `_` turned into a space, then capitalised at word starts. |
| DataDescription.VariableLabelShape | clearskyiq/src/app/components/TempoVisualization/DataDescription.tsx:46 | The label has no underscore. Its length is the name's less eight exactly when `product/` occurs. |
| DataDescription.GeographicArea | clearskyiq/src/app/components/TempoVisualization/DataDescription.tsx:21-24 | "Global" exactly when there is no box or it does not have four numbers. Otherwise the text is the four values, read west, south, east, north, each with its fixed `°W`/`°N` suffix. |
| HarmonyApi.Server.Startup | harmony-api/main.py:52-73 | A client exists exactly when both credentials are set and non-empty, the user name is not the placeholder, and construction does not raise. |
| HarmonyApi.Server.Shutdown | harmony-api/main.py:77-78 | The client is dropped. |
| HarmonyApi.Server.constructor | harmony-api/main.py:49 | The process starts with no Harmony client. |
| HarmonyApi.GetHarmonyClient | harmony-api/main.py:98-104 | The client when one exists, otherwise 503 "Harmony client not available". |
| HarmonyApi.VerifyToken | harmony-api/main.py:107-118 | The token passes exactly when it equals `SECRET_KEY` (`default-token` when unset). Otherwise the result is 401 with `WWW-Authenticate: Bearer`. |
| HarmonyApi.HealthCheck | harmony-api/main.py:129-136 | `healthy` exactly when a client exists, otherwise `unhealthy`, with the configured version. |
| HarmonyApi.Root | harmony-api/main.py:120-127 | Always `healthy`. |
| HarmonyApi.RootAndHealthAgree | harmony-api/main.py:120-136 | The two endpoints answer alike exactly when a client exists. |
| HarmonyApi.SpatialFilter | harmony-api/main.py:165-171 | A filter is set exactly when the box has four numbers, read west, south, east, north. |
| HarmonyApi.NormalizeUtc | harmony-api/main.py:152-153 | No `Z` survives, and each one adds five characters. |
| HarmonyApi.NormalizeUtcInPlace | harmony-api/main.py:152-153 | Normalising works part by part, and a single character becomes `+00:00` exactly when it is `Z`: each `Z` is replaced where it stood and every other character is kept. |
| HarmonyApi.TrailingZIsUtcOffset | harmony-api/main.py:152-153 | A timestamp whose only `Z` is its last character ends in `+00:00` instead. |
| HarmonyApi.NormalizeUtcKeeps | harmony-api/main.py:152-153 | A time without `Z` is parsed as written. |
| HarmonyApi.Basename | harmony-api/main.py:191 | `os.path.basename` is no longer than the path and contains no `/`. |
| HarmonyApi.BasenameIsLastSegment | harmony-api/main.py:191 | The file name is the path's tail after its last `/`. |
| HarmonyApi.Summaries | harmony-api/main.py:184-203 | At most one summary per file, and exactly one each when every file is readable. |
| HarmonyApi.SummaryOrigin | harmony-api/main.py:184-203 | Every summary kept describes some downloaded file. |
| HarmonyApi.Describe | harmony-api/main.py:188-198 | A summary exists exactly when the file is readable. It has the path, the base name and status `downloaded`. Its size is the file's when the file exists and 0 otherwise. `requested_variables` is present exactly when the request named a non-empty list, and it is then that list. |
| HarmonyApi.SummariesSnoc | harmony-api/main.py:184-203 | Summarising one more file appends that file's summary, if any, to the earlier ones. |
| HarmonyApi.ProcessFiles | harmony-api/main.py:184-203 | The loop walks the files in download order, appending each readable file's summary. It yields exactly the summaries of the readable files, in that order. |
| HarmonyApi.GetTempoData | harmony-api/main.py:138-219 | A request goes to Harmony exactly when both normalised times parse, for the TEMPO collection with the spatial filter. Success reports the job, the summaries, their count, and "Successfully processed N files". Any failure has no data, and its message is "Error fetching TEMPO data: " followed by the reason: the start time's parse error, else the end time's, else Harmony's. |
| Http.MessageOf | clearskyiq/src/app/api/tempo/visualize/all/route.ts:14-15 | A message is read exactly when the body decoded to an object with a non-empty string `message`. |
| Http.StatusText | clearskyiq/src/app/api/tempo/visualize/all/route.ts:15 | "API responded with status " followed by the decimal status. |
| Text.NatToString | clearskyiq/src/app/components/TempoVisualization.tsx:145 | A number in a template string is its decimal digits. |
| Text.ParseNatToString | clearskyiq/src/app/components/TempoVisualization.tsx:145 | Reading the decimal digits back gives the number. |
| Text.NatToStringInjective | clearskyiq/src/app/components/TempoVisualization.tsx:145 | Different counts give different texts. |
| Text.Split | clearskyiq/src/app/components/TempoVisualization.tsx:181 | `split(',')` gives one part more than there are separators, and no part contains the separator. |
| Text.JoinSplit | clearskyiq/src/app/components/TempoVisualization.tsx:181 | Joining the parts with the separator gives the field back. |
| Text.SplitJoin | clearskyiq/src/app/components/TempoVisualization.tsx:181 | Splitting a join of separator-free parts gives the parts back. |
| Text.CountZero | clearskyiq/src/app/components/TempoVisualization.tsx:291 | No separator is counted exactly when none occurs. |
| Text.Trim | clearskyiq/src/app/components/TempoVisualization.tsx:180 | `trim()` neither starts nor ends with white space, and is empty exactly when the field is all white space. |
| Text.TrimCutsOnlySpace | clearskyiq/src/app/components/TempoVisualization.tsx:180 | What `trim()` removes is only white space at either end of the field. |
| Text.ReplaceChar | harmony-api/main.py:152 | After replacing a character with a text that lacks it, the character no longer occurs. |
| Text.ReplaceCharAppend | harmony-api/main.py:152 | Replacing in a concatenation is replacing in each part, in order. |
| Text.ReplaceCharSingle | harmony-api/main.py:152 | A single character becomes the replacement exactly when it is the one replaced, and is kept otherwise. |
| Text.ReplaceCharLength | harmony-api/main.py:152 | Each replaced character adds the replacement's length less one. |
| Text.ReplaceCharAt | clearskyiq/src/app/components/TempoVisualization/DataDescription.tsx:46 | A one-character replacement keeps every other character in place. |
| Text.IndexOf | clearskyiq/src/app/components/TempoVisualization/DataDescription.tsx:46 | The first index where the pattern occurs, or none exactly when it occurs nowhere. |
| Text.OrElse | clearskyiq/src/app/components/TempoVisualization.tsx:137 | `a \|\| b` on a string: the value when it is present and non-empty, otherwise the fallback. |

## Left out

- I/O, covering every `fetch`, request-body parsing, the Harmony library
  calls (`submit`, `wait_for_processing`, `download_all`) and the filesystem
  checks on downloaded files. Each is a parameter holding what it delivers.
  `console.log`/`print` output is not modelled.
- Intermediate render states between the awaits of a handler: each method
  models a handler from its start to its end. React's batching and the
  re-running of the preload effect when the times or the variable change are
  not modelled. `Preload` is one run of the effect, and `HandleRetry` calls
  `HandleSubmit` synchronously.
- `setInterval` timing: the two-second period, timer cancellation, and
  interleavings with other handlers. A poll is one `Tick` call on one
  registered poller.
- `plotNames` lookups with keys inherited from `Object.prototype`: every key
  outside the three plot types reads `undefined`.
- The status-by-job-id route (`/api/tempo/visualize/status/[jobId]`): its
  handler is not part of this model. The job status it returns is an input.
- FastAPI dependency-injection order, request validation and CORS. The
  backend handlers are modelled after their dependencies have passed.
- `get_available_collections` (`/tempo/collections`): it only relays a
  Harmony library call, which is outside the model.
- SQLite, `pickle`, the `RLock`, md5 key generation and database exceptions.
  Cache values are opaque, and every write succeeds.
- Timestamp formats. SQLite `CURRENT_TIMESTAMP` compared with
  `datetime.now()` (UTC text against local time) is not modelled: the cache
  and the page use integer clocks or abstract parsers (`new Date` is a
  function to an optional time value, `fromisoformat` one to a result).
- Floating point. `parseFloat` is a function to an optional real (`NaN` is
  none) and `toFixed(1)` is a function to a string. `avg_accesses`,
  `db_size_mb`, and the oldest and newest entry of `get_stats` are left out.
- `DataStorage` and the markup-only components: `page.tsx`, `layout.tsx`,
  `header.tsx`, `footer.tsx`, `Explore.tsx`, `HelpContent.tsx`,
  `EmptyState.tsx`, `ErrorDisplay.tsx`, `VisualizationCard.tsx`,
  `LoadingState.tsx`, `VisualizationForm.tsx` and `ml/page.tsx`. The
  `test_*.py` scripts are clients of a running server.
- JSON fields of the wrong type: a `message` that is not a string counts as
  absent, and counts are natural numbers. Non-integer or negative JSON
  numbers in `files_processed`, `success_count` and `total_count` are not
  modelled.
- TempoForm.LenientBbox: a `NaN` part is carried as an absent number. Its
  JSON rendering as `null` is not modelled.
- TempoForm.NotOkText: a non-ok answer whose body is JSON `null` is read as
  having no message. In the page, reading `errorData.message` throws a
  TypeError there. The page's replies are typed bodies, and the routes it
  calls never answer with `null`.
- TempoForm.SubmitOutcome: an ok answer whose body is JSON `null` is not
  modelled. Reading `data.success` on it throws a TypeError.
- TempoForm.AllThreeOutcome: an ok answer whose body is JSON `null` is not
  modelled. Reading `data.success` on it throws a TypeError.
- TempoForm.StatusOf: an ok answer whose body is JSON `null` is not
  modelled. It would store `null` as the job status.
- TempoForm.ConnectionOutcome: an ok answer whose body is JSON `null` is not
  modelled. Reading `data.status` on it throws a TypeError.
- TempoForm.ParallelOutcome: an ok answer whose body is JSON `null` is not
  modelled. Reading `data.success` on it throws a TypeError. The routes the
  page calls never answer `null`.
