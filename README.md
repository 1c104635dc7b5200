# A Dafny model of the showAni gallery's sequential logic

showAni is a browser gallery of PAG vector animations. The rendering engine
(libpag, a WebAssembly library) is opaque. The repository's own logic is a
handful of small, single-threaded pieces, and this project models them:

- **The script loader** (`Pag/utils/loadScript.ts`, module `ScriptLoader`).
  A module-level map from URL to a `ScriptState` (`loaded`, `loading`, a
  success-callback queue, an error-callback queue) changes on three events:
  a `loadScript` request, and the `onload` and `onerror` handlers of the
  script element that a fresh request appends to the document head. The
  class `ScriptLoader` keeps the map as a `map` field. It records every
  callback run in the trace `calls`, and every appended script element in
  `scripts`. Callbacks are opaque ids. `OnLoad` and `OnError` drain their
  queue with a loop, as `forEach` does, and are proved against `Invoke`,
  which says "each queued callback once, in queue order".
- **The Pag adapter's module globals** (`Pag/index.tsx`, module `PagRuntime`).
  The class `PagGlobals` holds `WASM_FILE`, `PAG_INIT`, `isInitializing`,
  `initializePAGPromise`, `fpsMonitorTimer`, `playStartTimestamp` and
  `repeatStartTimestamp`. The two object globals are modelled as "set or
  not". `initializePAG` is a call returning "already initialised", "joined the
  in-flight promise" or "started attempt n". The `await` steps of its
  asynchronous body are events (`WasmFetched`, `PagInitResolved`,
  `AttemptSucceeded`, `AttemptFailed`). A `stage` field records which `await`
  the in-flight attempt has reached. The interval handles that `setInterval`
  would return are parameters. `runningTimers` is the set of intervals not yet
  cleared, and the invariant proves it never holds more than the handle in the
  slot. The stutter test is the pure function `NotSmooth`.
- **The home page's selection** (`app/page.tsx`, module `Gallery`). A falsy
  selection shows the whole list; otherwise the page shows an
  order-preserving filter on `category`. `Home` gives the result line and the
  card keys.
- **The static catalogue** (`data/animations.ts`, module `Catalogue`). The
  category list and the fifteen records are constants, with their data
  invariants proved.

`Options` holds the `Option` datatype shared by the modules.

Two behaviours of the code are worth knowing, and the model states both:

- `selectedCategory ? … : animations` in `page.tsx` tests truthiness, so an
  empty-string selection also shows every animation. `FilteredAnimations`
  models this.
- The failure phase of `initializePAG` is read from the global `WASM_FILE`,
  not from the failing attempt. Suppose one attempt fetched the binary and then
  failed in `PAGInit`. A later attempt whose own fetch fails is then reported
  as a `libpag.PAGInit` failure. `RetryAfterFailureScenario` proves this. A
  failure while registering the font, after `PAG_INIT` is set, leaves the
  engine counted as initialised (`FontFailureScenario`).

## Model

| member | source | states |
|---|---|---|
| Options.AsSeq | src/app/components/Pag/utils/loadScript.ts:27 | an absent error callback gives the empty queue, a present one the one-element queue holding it |
| ScriptLoader.IsLoaded | src/app/components/Pag/utils/loadScript.ts:11-12 | `state?.loaded`: false for a URL with no entry, otherwise the entry's `loaded` flag |
| ScriptLoader.IsLoading | src/app/components/Pag/utils/loadScript.ts:11-15 | `state?.loading`: false for a URL with no entry, otherwise the entry's `loading` flag |
| ScriptLoader.Invoke | src/app/components/Pag/utils/loadScript.ts:35-48 | running a queue runs every queued callback exactly once, in queue order, as success or error runs |
| ScriptLoader.ScriptLoader.constructor | src/app/components/Pag/utils/loadScript.ts:8 | the map starts empty, no callback has run, no script element exists |
| ScriptLoader.ScriptLoader.LoadScript | src/app/components/Pag/utils/loadScript.ts:10-51 | a loaded URL runs the callback at once and changes nothing else; a loading URL appends the callback and the error callback (if given) to the queues and creates no element; otherwise a fresh state (not loaded, loading, queue [callback], error queue [errorCallback] or []) replaces any old one and exactly one element is appended; other URLs' entries are untouched; `loaded` and `loading` are never both true |
| ScriptLoader.ScriptLoader.OnLoad | src/app/components/Pag/utils/loadScript.ts:35-40 | the queued success callbacks run once each, in request order; the state becomes loaded, not loading, with an empty success queue; other entries unchanged |
| ScriptLoader.ScriptLoader.OnError | src/app/components/Pag/utils/loadScript.ts:42-48 | the queued error callbacks run once each, in order; both flags are cleared and the error queue emptied; the success queue is kept |
| ScriptLoader.SharedLoadScenario | src/app/components/Pag/utils/loadScript.ts:12-39 | two requests share one script element, both callbacks run in request order on load, and a later request runs at once |
| ScriptLoader.RetryAfterErrorScenario | src/app/components/Pag/utils/loadScript.ts:21-47 | after an error only the error callback has run, and the next request replaces the state and appends a second script element |
| PagRuntime.PhaseLabel | src/app/components/Pag/index.tsx:71 | the phase is "加载WASM文件" exactly when `WASM_FILE` is null and "libpag.PAGInit" exactly when it is set |
| PagRuntime.NotSmooth | src/app/components/Pag/index.tsx:238-241 | a stutter is reported exactly when elapsed ms minus duration/1000 exceeds 2000, over the reals |
| PagRuntime.PagGlobals.constructor | src/app/components/Pag/index.tsx:7-25 | every global starts null, false or 0, and the invariants hold |
| PagRuntime.PagGlobals.InitializePAG | src/app/components/Pag/index.tsx:39-80 | with both globals set it returns at once and changes nothing; while an attempt is in flight it returns that attempt's promise and starts nothing; otherwise it sets `isInitializing` and starts exactly one new attempt with a new promise |
| PagRuntime.PagGlobals.WasmFetched | src/app/components/Pag/index.tsx:52-53 | the fetched binary sets `WASM_FILE`; the attempt moves on to `PAGInit` |
| PagRuntime.PagGlobals.PagInitResolved | src/app/components/Pag/index.tsx:57-60 | `PAG_INIT` is set; only the font registration remains |
| PagRuntime.PagGlobals.AttemptSucceeded | src/app/components/Pag/index.tsx:62-76 | after success `isInitializing` is false and both globals are set |
| PagRuntime.PagGlobals.AttemptFailed | src/app/components/Pag/index.tsx:68-76 | after failure `isInitializing` is false, the phase comes from `WASM_FILE`, and globals already set stay set |
| PagRuntime.PagGlobals.StartFPSMonitoring | src/app/components/Pag/index.tsx:83-93 | the old interval is cleared; with logging the slot holds the new handle and it is the only running interval; without logging no interval runs and the slot keeps the stale handle |
| PagRuntime.PagGlobals.StopFPSMonitoring | src/app/components/Pag/index.tsx:96-101 | the slot is null and no interval runs |
| PagRuntime.PagGlobals.OnAnimationStart | src/app/components/Pag/index.tsx:225-230 | both timestamps become the current time and FPS monitoring restarts |
| PagRuntime.PagGlobals.OnAnimationEnd | src/app/components/Pag/index.tsx:234-252 | the not-smooth report is `NotSmooth` of the time since the play start; FPS monitoring stops |
| PagRuntime.PagGlobals.OnAnimationRepeat | src/app/components/Pag/index.tsx:256-274 | the report measures from the previous repeat boundary, the boundary moves to now, and FPS monitoring stops |
| PagRuntime.PagGlobals.OnAnimationPause | src/app/components/Pag/index.tsx:278-281 | FPS monitoring stops |
| PagRuntime.PagGlobals.OnAnimationPlay | src/app/components/Pag/index.tsx:285-288 | FPS monitoring restarts as in `StartFPSMonitoring` |
| PagRuntime.ConcurrentMountScenario | src/app/components/Pag/index.tsx:41-49 | a second call during an attempt joins its promise, one fetch is started, and after success a call returns at once |
| PagRuntime.RetryAfterFailureScenario | src/app/components/Pag/index.tsx:41-76 | a failure before `PAG_INIT` is set lets the next call start a second attempt; the stale `WASM_FILE` makes that attempt's fetch failure read as a `PAGInit` failure |
| PagRuntime.FontFailureScenario | src/app/components/Pag/index.tsx:57-73 | a failure after `PAG_INIT` is set is a `PAGInit`-phase failure, and the next call returns at once |
| PagRuntime.StaleSlotScenario | src/app/components/Pag/index.tsx:83-101 | starting without logging clears the interval but leaves the stale handle; a stop then empties the slot |
| Catalogue.categories | src/app/data/animations.ts:4-12 | the seven category names, in listed order |
| Catalogue.animations | src/app/data/animations.ts:18-162 | the fifteen records with every field, in listed order, without the commented-out record |
| Catalogue.CatalogueIdsDistinct | src/app/data/animations.ts:18-162 | the record ids are pairwise distinct |
| Catalogue.AscendingIdsAreDistinct | src/app/data/animations.ts:18-162 | records listed in ascending id order have distinct ids |
| Catalogue.CategoriesDistinct | src/app/data/animations.ts:4-12 | no category is listed twice |
| Catalogue.CategoriesCoverCatalogue | src/app/data/animations.ts:4-162 | every record's category is one of the listed categories |
| Catalogue.CatalogueShape | src/app/data/animations.ts:118-125 | there are 15 records and 7 categories, and no record has id 12 |
| Gallery.FilterByCategory | src/app/page.tsx:14 | the filtered list is no longer than the list and holds exactly the records whose category matches |
| Gallery.FilteredAnimations | src/app/page.tsx:13-15 | a falsy selection (null or "") gives the list unchanged; any other selection gives exactly the records of that category; the result is never longer than the list |
| Gallery.StatusOf | src/app/page.tsx:38-49 | the empty-category notice exactly when the filtered list is empty; otherwise the count shown is its length |
| Gallery.Home | src/app/page.tsx:13-56 | the notice shows exactly when there are no cards, the count equals the number of cards, there are at most as many cards as catalogue records, and every card key is a catalogue id |
| Gallery.FilterAppend | src/app/page.tsx:14 | filtering a concatenation concatenates the filtered parts, so relative order is kept |
| Gallery.FilterSingleton | src/app/page.tsx:14 | a single record is kept exactly when its category matches |
| Gallery.FilterCounts | src/app/page.tsx:14 | a matching record occurs in the result as often as in the list; any other record does not occur |
| Gallery.FilterIdempotent | src/app/page.tsx:14 | filtering the result again by the same category gives the same result |
| Gallery.FilterKeepsIdsDistinct | src/app/page.tsx:54-56 | filtering a list with distinct ids gives a list with distinct ids |
| Gallery.FalsySelectionShowsAll | src/app/page.tsx:13-15 | a null or empty selection yields the full list unchanged |
| Gallery.SelectionShowsExactlyItsCategory | src/app/page.tsx:13-15 | a category selection yields exactly that category's records, with their multiplicities, and no more records than the list |
| Gallery.FilteredAnimationsIdempotent | src/app/page.tsx:13-15 | applying the same selection twice gives the same list |
| Gallery.HomeViewConsistent | src/app/page.tsx:38-56 | the displayed count equals the number of cards, the empty-category notice shows exactly when there are none, and the card keys are distinct |
| Gallery.HomeShowsWholeCatalogue | src/app/page.tsx:13-40 | with no selection the page shows all 15 animations in catalogue order |
| Gallery.CategoryButtonsNeverEmpty | src/app/page.tsx:38-49 | for every listed category the filtered list is non-empty, so the empty-category notice is unreachable from the category buttons |
| Gallery.CategoriesPartition | src/app/page.tsx:14 | over distinct categories covering every record, the per-category list lengths sum to the list length |
| Gallery.CataloguePartition | src/app/data/animations.ts:18-162 | the seven per-category lists of the catalogue have 15 records in all |

## Left out

- Browser plumbing. The model does not cover the script element's `type` and
  `src` attributes, `console` logging, `fetch`, blobs, object URLs,
  `window.libpag.PAGInit`, or `PAGFont.registerFont`. A created script element
  is recorded only by its URL. The steps of an init attempt are events without
  contents.
- ScriptLoader.ScriptLoader.OnLoad: requires the URL to be loading. The
  browser fires one of `onload` or `onerror` once per script element, and only
  while that request is pending. The state object the handler captured is then
  the map's entry, because an entry is replaced only when it is not loading.
- ScriptLoader.ScriptLoader.OnError: same precondition, for the same reason.
- Callback re-entrancy. Callbacks are opaque ids, so a callback that itself
  calls `loadScript` while a queue drains is not modelled.
- Throwing callbacks. Callbacks are assumed to return normally. In the code a
  throwing callback aborts the `forEach` drain in `onload` or `onerror`. The
  queue reset after the drain is then skipped, and the later queued callbacks
  never run. In the loaded branch the exception propagates out of
  `loadScript`. So `Consistent`'s "loaded implies an empty success queue" and
  the "each queued callback runs once" of `OnLoad` and `OnError` hold only for
  callbacks that return. The one caller in `Pag/index.tsx` passes a callback
  that logs and starts the asynchronous `initPag()`, so it cannot throw
  synchronously.
- Promise semantics. `InitOutcome` names the returned promise. The model does
  not cover what awaiting callers see on resolve or reject, or the
  `error.message` text and `handleError`.
- The `fontFamily` argument. `initializePAG` uses only the argument of the
  call that starts an attempt; calls that join an attempt or return at once
  ignore theirs. The font itself is not modelled: its registration is the step
  between `PagInitResolved` and `AttemptSucceeded`/`AttemptFailed`, and the
  per-mount `replaceText` loop that also uses it is a libpag call, listed
  below.
- PagRuntime.NotSmooth: leaves out the `toFixed(2)` rounding of the difference
  and floating-point effects. The comparison is exact over integer
  milliseconds and microseconds.
- PagRuntime.PagGlobals.OnAnimationStart: the code reads `Date.now()` twice,
  once per timestamp. The model uses one reading for both.
- The FPS interval's body: `getDebugData().FPS` logging every 100 ms. Interval
  handles are opaque parameters.
- The user callbacks of the handlers, such as `onAnimationStartCb` and
  `onNotSmoothCb`. The model keeps only the not-smooth decision, as each
  handler's result.
- The libpag calls: `PAGFile.load`, `PAGView.init`, the `replaceText` loop,
  `setRepeatCount`/`setScaleMode`/`setMaxFrameRate`, the
  play/pause/stop/setProgress/destroy pass-throughs and `e.setProgress(0)`.
  These are foreign calls with no local logic.
- The `useEffect` orchestration: the `window.libpag` check, the post-init
  `WASM_FILE && PAG_INIT` check, and the unmount cleanup. The cleanup calls
  `stopFPSMonitoring`, which is modelled.
- The UI: rendering in `AnimationCard.tsx`, `CategoryFilter.tsx`,
  `SearchBar.tsx` and the detail page; `next.config.ts`; the type
  declarations in `Pag/type/index.ts`.
