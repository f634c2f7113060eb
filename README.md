# lol_pickban core, modelled in Dafny

This project models four parts of the League of Legends pick/ban tool:

- **The integration-suite driver** (`tests/integration/test_suite.py`, module `IntegrationSuite`). A `TestSuite` object:
  - launches the Flask backend and waits 5 s for it;
  - launches the frontend dev server and polls it for up to 60 s;
  - runs three HTTP checks (health, champions, frontend), each only if its server started;
  - records the verdicts in `test_results`;
  - stops both servers;
  - exits with status 0 or 1.
- **The Data Dragon wrapper** (`backend/utils/lol_api.py`, module `LolApi`). It picks the first entry of the versions list and turns the champion feed into `{champions, count}`, building each icon URL from the version and the champion id.
- **The champion grid** (`frontend/src/ChampionGrid.tsx`, module `ChampionGrid`):
  - its state cells and its in-place debug log;
  - the handlers of its one fetch of `/api/champions`;
  - the search filter;
  - the render priority: loading, then error, then "No champions found.", then the cards.
- **The grid component** (`frontend/src/components/ChampionGrid.tsx`, module `ComponentsChampionGrid`). It uses the same filter. Its loading indicator, error message and empty notice each depend only on their own condition. The heading and the grid container are always rendered.

## Shared modules

| Module | What it holds |
|---|---|
| `Wrappers` | `Option` and `Result` |
| `Strings` | Substring search (Python `in` on a `str`, JavaScript `includes`) and ASCII lowercasing |
| `PyJson` | Decoded JSON, and Python's `in` and `[]` on it, including the `KeyError` and `TypeError` they raise |
| `Champions` | The champion record, the grids' filter, and the shapes of the fetch outcome |

## How the model works

**Stateful code.** Where the source mutates an object, the model has a class with the same fields. Most methods are proved equal to a pure state-transformer function of the old state and the inputs, for example `State() == RunAll(old(State()), env).state`, and the properties are proved as lemmas about those functions. The small handlers that touch only a few cells (`LogDebugEntry`, `FailLoad`, `OnFetchError`, and `OnResponse` when an exception escapes it), and the readiness loop `AwaitFrontend`, which states the I/O it appends state instead the new values of exactly the cells they may change.

**I/O as a trace.** Everything the suite does to the outside world is appended to a trace field, `effects`: spawning, sleeping, HTTP GETs, collecting output, terminating and waiting. Everything the outside world answers is an input, the `Environment`:
- whether each launch succeeds;
- whether a process has exited;
- each HTTP reply, with its body decoded as JSON or absent when it is not JSON;
- one observation per iteration of the frontend readiness loop.

**Two mismatches, kept as written:**
- The suite's champions check looks for a `data` dict holding `Aatrox`, but the backend serves `{champions, count}`. `IntegrationSuite.ChampionsCheckRejectsBackendPayload` proves that the check fails on every payload the backend can produce.
- Both grids branch on `data.success`, which the backend never sets. The two `BackendPayloadShowsError` lemmas prove that both grids therefore show the load error on the backend's own answer.

## Model

| member | source | states |
|---|---|---|
| Strings.Contains | frontend/src/ChampionGrid.tsx:54 | A contained string is no longer than the string that contains it |
| Strings.ContainsIff | frontend/src/ChampionGrid.tsx:54 | `needle` is contained in `s` iff it equals the slice of `s` at some position |
| Strings.Lower | frontend/src/ChampionGrid.tsx:54 | Lowercasing keeps the length and maps each character through ASCII `toLowerCase` |
| Strings.LowerIdempotent | frontend/src/ChampionGrid.tsx:54 | Lowercasing twice is lowercasing once |
| PyJson.PyIn | tests/integration/test_suite.py:177-180 | `key in v` is a key test on a dict, an element test on a list and a substring test on a str; it raises `TypeError` exactly on None, booleans and numbers |
| PyJson.PyIndex | tests/integration/test_suite.py:141 | `v[key]` succeeds exactly on a dict holding the key and yields its value; a dict without the key raises `KeyError(key)`; anything else raises `TypeError` |
| Champions.Matches | frontend/src/ChampionGrid.tsx:54 | The empty search matches every champion; a matching search is no longer than the name |
| Champions.Filter | frontend/src/ChampionGrid.tsx:53-55 | The filtered list is no longer than the input, and its members are input members that match the search |
| Champions.FilterIsSubsequence | frontend/src/ChampionGrid.tsx:53-55 | The filtered list is an order-preserving subsequence of the champions |
| Champions.FilterCount | frontend/src/ChampionGrid.tsx:53-55 | A matching champion occurs in the filtered list exactly as often as in the input; a non-matching one does not occur |
| Champions.FilterKeeps | frontend/src/components/ChampionGrid.tsx:32 | A champion is kept iff it is in the list and its lowercased name contains the lowercased search |
| Champions.FilterEmptyIff | frontend/src/ChampionGrid.tsx:76 | The filtered list is empty iff no champion matches |
| Champions.FilterSpec | frontend/src/components/ChampionGrid.tsx:32 | Order-preserving, sound and complete, and empty exactly when nothing matches |
| Champions.FilterEmptySearch | frontend/src/ChampionGrid.tsx:53-55 | The empty search keeps every champion |
| Champions.FilterIdempotent | frontend/src/ChampionGrid.tsx:53-55 | Filtering twice with the same search equals filtering once |
| Champions.FilterIgnoresSearchCase | frontend/src/ChampionGrid.tsx:54 | Lowercasing the search text first does not change the result |
| Champions.Truthy | frontend/src/ChampionGrid.tsx:38 | A JSON value is falsy exactly when it is `null`, `false`, `0` or the empty string |
| Champions.SuccessOf | frontend/src/ChampionGrid.tsx:38 | `data.success` is truthy only on an object with a `success` member, and is whenever that member is `true` |
| Champions.BodyOf | frontend/src/ChampionGrid.tsx:37-38 | A parsed `null` is the body whose `.success` throws; any other value is a payload whose success flag is the JavaScript truthiness of an object's `success` member, false when the member is absent |
| LolApi.ChampionsUrl | backend/utils/lol_api.py:20 | The champion-feed URL lies under the CDN directory of the version |
| LolApi.IconUrl | backend/utils/lol_api.py:30 | The icon URL lies under the CDN directory of the version |
| LolApi.IconUrlRoundTrip | backend/utils/lol_api.py:30 | The champion id can be recovered from its icon URL |
| LolApi.IconUrlInjective | backend/utils/lol_api.py:30 | Distinct champion ids give distinct icon URLs |
| LolApi.LatestVersion | backend/utils/lol_api.py:10-15 | Succeeds exactly on a non-4xx/5xx reply with a non-empty list, and then yields its first entry; otherwise raises `HTTPError` or `IndexError` |
| LolApi.Project | backend/utils/lol_api.py:26-31 | A record projects iff it has `id` and `name`; the entry carries them, with an icon URL whose id is the record's; the missing `id` is reported before the missing `name` |
| LolApi.Transform | backend/utils/lol_api.py:24-31 | A completed loop yields one champion per feed record |
| LolApi.TransformOk | backend/utils/lol_api.py:24-31 | The loop completes iff every record has both fields, and then entry `i` is the projection of record `i` |
| LolApi.TransformFirstError | backend/utils/lol_api.py:24-31 | A failing loop reports the first record that lacks a field |
| LolApi.TransformIgnoresKeys | backend/utils/lol_api.py:25 | The feed's dictionary keys play no part in the result |
| LolApi.FetchChampions | backend/utils/lol_api.py:17-32 | Succeeds iff the version was obtained, the feed's status is not 4xx/5xx, the feed has `data` and every record has `id` and `name`; then `count` equals the number of champions, one per record; a version failure is passed on unchanged, a 4xx/5xx feed raises `HTTPError` with its status, and a feed without `data` raises `KeyError('data')` |
| LolApi.FetchChampionsEntries | backend/utils/lol_api.py:19-31 | Each returned entry is built from the record at the same position, with the icon URL built from the newest version |
| LolApi.GetChampions | backend/utils/lol_api.py:17-32 | The imperative loop yields exactly `FetchChampions`; it requests the versions URL, then the newest version's feed URL, and the feed only after a version was obtained |
| LolApi.AsJson | backend/app.py:15 | The served object has exactly the keys `champions` and `count` |
| IntegrationSuite.BackendLaunch | tests/integration/test_suite.py:31-41 | `python -m backend.app` from the project root, not through a shell, with exactly `LOL_PICKBAN_PORT` set to the backend port |
| IntegrationSuite.FrontendLaunch | tests/integration/test_suite.py:63-76 | `npm start` in `frontend`; `npm.cmd` and the shell exactly on Windows; `PORT` and `LOL_PICKBAN_FRONTEND_PORT` both set to the frontend port |
| IntegrationSuite.AllPassed | tests/integration/test_suite.py:203 | The run passes iff no recorded result is false |
| IntegrationSuite.HealthCheck | tests/integration/test_suite.py:136-151 | Passes iff status 200 with a JSON body whose `message` is the greeting; raises iff status 200 with a JSON body that cannot be indexed by `message` |
| IntegrationSuite.ChampionsCheck | tests/integration/test_suite.py:168-187 | Fails on a failed request or a non-200 status; passes iff status 200 and the body is a dict whose `data` is a dict with key `Aatrox` |
| IntegrationSuite.ChampionsCheckRaises | tests/integration/test_suite.py:176-180 | Raises exactly on a 200 body that is a scalar, or a list or str that `'data' in` accepts but that a str cannot index |
| IntegrationSuite.FrontendCheck | tests/integration/test_suite.py:153-166 | Passes iff status 200 and never raises |
| IntegrationSuite.ChampionsCheckRejectsBackendPayload | tests/integration/test_suite.py:177-179 | The champions check fails on every payload the backend serves |
| IntegrationSuite.StartBackend | tests/integration/test_suite.py:26-53 | Ready iff launched and still alive after the settle sleep; the backend slot is set iff the launch succeeded; nothing else changes and the trace only grows |
| IntegrationSuite.KeepsPolling | tests/integration/test_suite.py:80-93 | An observation that keeps the loop going has a live process, no 200 and no uncaught exception; a refused connection with a live process always does |
| IntegrationSuite.Poll | tests/integration/test_suite.py:80-105 | A non-empty window starts with a GET of the frontend URL |
| IntegrationSuite.PollGets | tests/integration/test_suite.py:80-93 | Every request the loop makes is a GET of the frontend URL |
| IntegrationSuite.PollFrom | tests/integration/test_suite.py:80-93 | The loop only appends to the I/O done before it |
| IntegrationSuite.StopIndex | tests/integration/test_suite.py:80-93 | The first observation that ends the loop: every earlier one keeps it polling |
| IntegrationSuite.PollFromIsPoll | tests/integration/test_suite.py:80-93 | The left-to-right loop equals the recursive description, prefixed by the I/O already done |
| IntegrationSuite.PollOutcome | tests/integration/test_suite.py:80-105 | The outcome is decided by the first non-polling observation: Ready on a 200, ProbeError on another exception, Died on an exit, TimedOut if there is none |
| IntegrationSuite.PollReady | tests/integration/test_suite.py:82-85 | Ready iff some probe answers 200 before anything else ends the loop, and that probe is the last I/O |
| IntegrationSuite.PollExited | tests/integration/test_suite.py:88-93 | A process seen to have exited, before any 200 or other exception, makes the start fail as Died |
| IntegrationSuite.PollTerminates | tests/integration/test_suite.py:94-105 | Times out iff every observation keeps polling; the loop terminates the frontend iff it timed out with the process still running, and then the last two I/O effects are terminate and collect |
| IntegrationSuite.FrontendStartup | tests/integration/test_suite.py:55-108 | Ready only when the directory exists and the launch succeeded |
| IntegrationSuite.StartFrontend | tests/integration/test_suite.py:55-108 | The start's result is `FrontendStartup`; the frontend slot holds `npm start` iff the directory exists and the launch succeeded, and is unchanged otherwise; the backend slot and the results are unchanged; the trace only grows |
| IntegrationSuite.StartFrontendByLoop | tests/integration/test_suite.py:62-105 | A launched frontend's start equals the left-to-right loop after the spawn |
| IntegrationSuite.BackendLogs | tests/integration/test_suite.py:123-134 | Only the trace changes; it gains terminate and collect of the backend iff there is one |
| IntegrationSuite.TestHealth | tests/integration/test_suite.py:136-151 | Returns `HealthCheck`; performs a GET of `/api/data`, followed by the backend log dump exactly when the check failed and a backend exists; nothing else changes |
| IntegrationSuite.TestChampions | tests/integration/test_suite.py:168-187 | Returns `ChampionsCheck`; the only change is a GET of `/api/champions` |
| IntegrationSuite.TestFrontend | tests/integration/test_suite.py:153-166 | Returns `FrontendCheck`; the only change is a GET of the frontend URL |
| IntegrationSuite.BackendTests | tests/integration/test_suite.py:193-198 | When not aborted, both backend results are recorded as "backend ready and check passed"; an abort happens only with the backend ready and one of its checks raising |
| IntegrationSuite.FrontendTests | tests/integration/test_suite.py:199-202 | The frontend result is recorded as "frontend ready and check passed" |
| IntegrationSuite.RunAll | tests/integration/test_suite.py:189-204 | A completed run records each key as "its server started and its check passed" and reports whether every recorded value is true; the run aborts iff the backend started and one of its checks raised |
| IntegrationSuite.RunAllKeys | tests/integration/test_suite.py:194-202 | A completed run adds exactly the three result keys |
| IntegrationSuite.BackendGating | tests/integration/test_suite.py:193-198 | With the backend not started, both backend results are false and the backend replies are never read |
| IntegrationSuite.BackendNeverRequested | tests/integration/test_suite.py:193-198 | From a fresh suite with the backend not started, every GET of the run goes to the frontend: neither `/api/data` nor `/api/champions` is requested |
| IntegrationSuite.FrontendGating | tests/integration/test_suite.py:199-202 | With the frontend not started, its result is false and its reply is never read |
| IntegrationSuite.RunFresh | tests/integration/test_suite.py:189-204 | From a fresh suite: the run passes iff both servers started and all three checks passed; an aborted run had the backend started and never recorded the frontend key |
| IntegrationSuite.StopEffects | tests/integration/test_suite.py:112-121 | An empty slot stops nothing; an occupied slot is terminated, then waited on |
| IntegrationSuite.Cleanup | tests/integration/test_suite.py:110-121 | Slots and results are unchanged; the backend's stop comes before the frontend's |
| IntegrationSuite.CleanupStops | tests/integration/test_suite.py:110-121 | Exactly the launched servers are terminated, and each terminate is followed by a wait on the same server |
| IntegrationSuite.ExitCode | tests/integration/test_suite.py:221-226 | Exit status 0 iff the run completed with every test passed, otherwise 1 |
| IntegrationSuite.Session | tests/integration/test_suite.py:206-226 | Cleanup follows the run on every path; status 0 iff the run completed with everything passed |
| IntegrationSuite.SessionAborted | tests/integration/test_suite.py:210-215 | An escaped exception gives status 1 after cleanup stopped the launched servers |
| IntegrationSuite.TestSuite.constructor | tests/integration/test_suite.py:21-24 | Starts with no processes, no results and no I/O |
| IntegrationSuite.TestSuite.StartBackendServer | tests/integration/test_suite.py:26-53 | Returns and performs exactly `StartBackend` |
| IntegrationSuite.TestSuite.StartFrontendServer | tests/integration/test_suite.py:55-108 | Returns and performs exactly `StartFrontend` |
| IntegrationSuite.TestSuite.AwaitFrontend | tests/integration/test_suite.py:77-105 | The `while` loop, with its invariant, performs exactly the loop's specification and returns its outcome |
| IntegrationSuite.TestSuite.PrintBackendLogs | tests/integration/test_suite.py:123-134 | Terminates the backend and collects its output when there is one |
| IntegrationSuite.TestSuite.TestBackendApiHealth | tests/integration/test_suite.py:136-151 | Performs a GET of `/api/data`, and on failure the backend log dump |
| IntegrationSuite.TestSuite.TestGetChampionsApi | tests/integration/test_suite.py:168-187 | Performs a GET of `/api/champions` and returns `ChampionsCheck` |
| IntegrationSuite.TestSuite.TestFrontendAccessibility | tests/integration/test_suite.py:153-166 | Performs a GET of the frontend URL and returns `FrontendCheck` |
| IntegrationSuite.TestSuite.RunAllTests | tests/integration/test_suite.py:189-204 | Returns and performs exactly `RunAll` |
| IntegrationSuite.TestSuite.CleanupServers | tests/integration/test_suite.py:110-121 | Performs exactly `Cleanup` |
| IntegrationSuite.RunSuite | tests/integration/test_suite.py:206-226 | `main` exits with `Session`'s status and leaves the suite in `Session`'s state |
| ChampionGrid.Initial | frontend/src/ChampionGrid.tsx:10-14 | No champions, empty search, loading, no error, empty debug log |
| ChampionGrid.LogDebug | frontend/src/ChampionGrid.tsx:16-18 | Exactly one entry is appended at the end of the log, and nothing else changes |
| ChampionGrid.BeginFetch | frontend/src/ChampionGrid.tsx:21-22 | The effect first logs the fetch, and changes nothing else |
| ChampionGrid.OutcomeLog | frontend/src/ChampionGrid.tsx:24-49 | Every settled fetch logs something; a response is logged first exactly when one arrived; the last entry is the fetch error for a rejection, an unreadable body or a `null` body, and the parse error for an unparsable body |
| ChampionGrid.Settle | frontend/src/ChampionGrid.tsx:24-49 | Loading ends; a delivered list replaces the champions and leaves the error; every other outcome sets "Failed to load champions" and keeps the champions; the log gains exactly the outcome's entries |
| ChampionGrid.SetSearch | frontend/src/ChampionGrid.tsx:64 | Only the search text changes |
| ChampionGrid.ViewOf | frontend/src/ChampionGrid.tsx:53-95 | Loading first, then a non-empty error, then the empty notice iff nothing matches, else exactly the filtered list: the matching champions in order, each as often as in the input |
| ChampionGrid.LoadingUntilSettled | frontend/src/ChampionGrid.tsx:10-13 | "Loading..." is shown until the fetch settles, whatever the search |
| ChampionGrid.ViewAfterFetch | frontend/src/ChampionGrid.tsx:24-95 | After the fetch, the error is shown iff no list was delivered; with the empty search, a delivered empty list shows the empty notice and any other shows every champion |
| ChampionGrid.ErrorSticky | frontend/src/ChampionGrid.tsx:33-47 | The error is never cleared once set |
| ChampionGrid.BackendPayloadShowsError | frontend/src/ChampionGrid.tsx:38-42 | The backend's answer has no `success`, so the grid shows the load error |
| ChampionGrid.Grid.constructor | frontend/src/ChampionGrid.tsx:10-14 | The cells start as `Initial` |
| ChampionGrid.Grid.LogDebugEntry | frontend/src/ChampionGrid.tsx:16-18 | Pushes exactly one entry onto the log array and changes no other cell |
| ChampionGrid.Grid.OnSearchChange | frontend/src/ChampionGrid.tsx:64 | Performs exactly `SetSearch` |
| ChampionGrid.Grid.StartFetch | frontend/src/ChampionGrid.tsx:21-22 | Performs exactly `BeginFetch` |
| ChampionGrid.Grid.FailLoad | frontend/src/ChampionGrid.tsx:33-34 | Sets "Failed to load champions" and ends loading, changing no other cell |
| ChampionGrid.Grid.OnFetchError | frontend/src/ChampionGrid.tsx:45-49 | Logs the fetch error, sets the load error and ends loading |
| ChampionGrid.Grid.OnResponse | frontend/src/ChampionGrid.tsx:24-44 | An exception escapes iff the body read fails or the body is `null`, and then only log entries were added; otherwise performs exactly `Settle` |
| ChampionGrid.Grid.OnSettled | frontend/src/ChampionGrid.tsx:23-49 | Performs exactly `Settle` |
| ComponentsChampionGrid.Initial | frontend/src/components/ChampionGrid.tsx:10-13 | No champions, empty search, loading, no error |
| ComponentsChampionGrid.Settle | frontend/src/components/ChampionGrid.tsx:15-29 | Loading ends; a delivered list replaces the champions; every other outcome sets "Failed to load champions" and keeps the champions |
| ComponentsChampionGrid.Render | frontend/src/components/ChampionGrid.tsx:34-57 | Heading first, search box second, the grid container last; the indicator iff loading; the error iff one is set; the container holds the filtered cards and the notice iff not loading and nothing was filtered in |
| ComponentsChampionGrid.AlwaysRendered | frontend/src/components/ChampionGrid.tsx:36-47 | The heading and the grid container are rendered once each, in every state |
| ComponentsChampionGrid.IndicatorsIndependent | frontend/src/components/ChampionGrid.tsx:45-46 | The loading indicator does not depend on the error, and the error message does not depend on loading |
| ComponentsChampionGrid.EmptyNoticeIff | frontend/src/components/ChampionGrid.tsx:54 | "No champions found." is shown iff not loading and no champion matches |
| ComponentsChampionGrid.AfterFirstFetch | frontend/src/components/ChampionGrid.tsx:15-54 | A failed first load shows the error together with the empty notice; a delivered list with the empty search shows every champion |
| ComponentsChampionGrid.BackendPayloadShowsError | frontend/src/components/ChampionGrid.tsx:19-22 | The backend's answer has no `success`, so this grid also sets the load error |
| ComponentsChampionGrid.Grid.constructor | frontend/src/components/ChampionGrid.tsx:10-13 | The cells start as `Initial` |
| ComponentsChampionGrid.Grid.OnSearchChange | frontend/src/components/ChampionGrid.tsx:42 | Only the search text changes |
| ComponentsChampionGrid.Grid.OnSettled | frontend/src/components/ChampionGrid.tsx:15-29 | Performs exactly `Settle` |

## Left out

- Real I/O is not run: processes, HTTP, the clock, sleeping and printing. Every answer is an input, and the I/O performed is the `effects` trace. Console output, including the end-of-run summary table, is not modelled.
- The 60-second readiness window and the 2-second probe timeout are not a clock. The number of observations in `frontendTrace` stands for how many iterations begin within the window.
- IntegrationSuite.Process: only the variables the suite sets on top of the inherited environment are recorded. The copied `os.environ` and the pipe and encoding options are not.
- IntegrationSuite.HttpReply: replies are not linked to server state. A champions reply after the health test terminated the backend is whatever the environment supplies.
- IntegrationSuite.TestSuite.PrintBackendLogs: the 5-second `communicate` timeout and its caught exception are not modelled.
- The timed-out frontend's output collection is modelled only as the collect effect; its exception is not.
- Exceptions that are not `Exception` subclasses, such as `KeyboardInterrupt` and `SystemExit`, are not modelled.
- An exception from `sys.exit` itself is not modelled.
- The order of entries in `test_results` is not modelled. The results are a map.
- `response.json()` failing is assumed to raise a `RequestException`, as requests 2.27 and later do. Such a check is therefore a caught failure, not an escaped exception.
- JSON numbers are integers, and floats are not modelled.
- LolApi.Record: a feed record is a map from field names to strings; other value types are not modelled.
- LolApi.LatestVersion: `requests.get` raising (backend/utils/lol_api.py:13, 21), a body that is not JSON (:15, :23), and a versions body that is not a list (a dict raises `KeyError(0)`, a str yields its first character) are not modelled; the versions reply is always a decoded list of strings.
- LolApi.FetchChampions: a feed without `data` is one input case, and a non-dict `data` is not modelled. `raise_for_status` is modelled for 4xx and 5xx statuses only.
- Lowercasing is ASCII-only. Unicode case mapping is not modelled.
- The text of debug-log lines is not modelled, only which step wrote each one. Joining them into the hidden element is not modelled either.
- Champions.Body: a payload's `champions` member is taken to be a list of champion records. A value of another shape, and the exceptions it would cause while rendering, are not modelled.
- React scheduling is not modelled: batching of state updates, re-renders, the effect running twice in development.
- The JSX markup, CSS classes, images and keys are not modelled. Only which elements appear, and in what order, is kept.
- `backend/app.py` is not part of this model beyond the shape of the champions answer (`LolApi.AsJson`).
- The draft screen, the team display, the app shell, `types.ts` and the Vite configuration are not part of this model.
