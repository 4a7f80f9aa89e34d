# kana-dojo client layout: font loading and selection

A model of the logic in the root client layout of kana-dojo
(`app/ClientLayout.tsx`), in four modules:

- `Fonts` (fonts.dfy): a catalog entry (`FontObject`: name and class name), a
  catalog (an ordered list, names not unique) and `Option` for the
  TypeScript `T | null` slots.
- `FontsCache` (fonts_cache.dfy): the module-level lazy loader
  `loadFontsModule` and its two slots, `fontsCache` and `fontsLoadingPromise`.
  It is written twice. The class `FontsModuleLoader` has the two slots as
  fields and their methods update them in place. The pure state machine
  (`Loader`, `CallStep`, `ResolveStep`, `RejectStep`, `Step`, `Run`) specifies
  those methods, and the lemmas are proved about it. The dynamic import is an
  event from the environment: the promise it created is later fulfilled
  (`Resolve`) or rejected (`Reject`). Each promise is named by its index in
  `imports`, the list of every promise the loader created, so
  `ImportsStarted` (`|imports|`) counts the imports started. Everything runs on
  one event loop, so each call's check-then-set is atomic.
- `FontSelection` (font_selection.dfy): the crazy-mode override that picks the
  effective theme and font (`Effective`). It also holds the memoised
  `fontClassName` lookup, which returns the first catalog entry with the
  effective font's name, or the default font's class otherwise.
- `FontsEffect` (fonts_effect.dfy): the mount effect that awaits the loader.
  One run of it owns an `isMounted` flag, which its cleanup clears. The loaded
  list is written to the component's `fontsModule` state only while the flag
  is set. A failure is only logged. `AwaitResult` connects this module to the
  loader: it gives what the effect's `await` yields in a loader state.
  `InitFontsEffect.Settle` applies it to the effect object, and
  `MountAndLoad` is a client that drives both objects in turn.

Main results:

- The import starts at most once, whatever calls and settlements happen
  (`ImportStartsAtMostOnce`).
- The two slots are never both non-null (`Inv`).
- Once the catalog is cached the loader never changes again (`LoadedIsFinal`).
- Once the import is rejected the loader never changes again either
  (`RejectionIsFinal`). The `.then` at lines 44-50 has no rejection handler,
  so `fontsLoadingPromise` keeps the rejected promise. Every later call gets
  that promise back and the import is never retried. So failures are cached:
  nothing clears `fontsLoadingPromise` on rejection (app/ClientLayout.tsx:44-50).

JavaScript truthiness is modelled explicitly. An empty array is truthy, so an
empty loaded catalog counts as cached (`Some([])`). For the crazy-mode values
only the empty string is falsy (`Truthy`).

## Model

| member | source | states |
|---|---|---|
| `FontsCache.FontsModuleLoader.constructor` | app/ClientLayout.tsx:37-38 | both slots start null and no import has started |
| `FontsCache.FontsModuleLoader.Call` | app/ClientLayout.tsx:40-53 | a non-null cache is returned with no state change; otherwise a stored promise is returned with no state change; otherwise one import is started, stored in the pending slot and returned; the new state is `CallStep` of the old one |
| `FontsCache.FontsModuleLoader.Resolve` | app/ClientLayout.tsx:44-50 | when the import's promise is in flight, the callback sets the cache to the loaded catalog, clears the pending slot and fulfils the promise with that same catalog; a promise already settled does not change |
| `FontsCache.FontsModuleLoader.Reject` | app/ClientLayout.tsx:44-50 | a rejection changes only the promise; both slots keep their values, so the pending slot keeps the rejected promise |
| `FontsCache.RunPreservesInv` | app/ClientLayout.tsx:37-50 | from any of the four reachable shapes (never requested, loading, loaded, failed), any sequence of events reaches one of them again; at most one import exists; a set cache keeps its value |
| `FontsCache.ImportStartsAtMostOnce` | app/ClientLayout.tsx:40-52 | from process start, across any sequence of calls, resolutions and rejections, at most one import starts and the two slots are never both non-null |
| `FontsCache.CallStartsImportIffBothNull` | app/ClientLayout.tsx:41-47 | a call starts an import exactly when both slots are null, and then the pending slot holds the promise the call returns, which is in flight |
| `FontsCache.LoadedIsFinal` | app/ClientLayout.tsx:41 | once the cache is set, no sequence of events changes the loader and every call returns the cached catalog |
| `FontsCache.RejectionIsFinal` | app/ClientLayout.tsx:42-50 | once the import is rejected, no sequence of events changes the loader: the cache stays null, no import starts again, and every call returns the same promise, which is rejected |
| `FontsCache.PendingClearedOnlyOnSuccess` | app/ClientLayout.tsx:45-49 | the pending slot is cleared only by the fulfilment of the stored promise, and that step sets the cache to the catalog the promise delivers |
| `FontsCache.CallsBeforeSettlementShareImport` | app/ClientLayout.tsx:42 | any number of calls made before the import settles all receive the promise the first of them created, and together they start exactly one import |
| `FontsCache.DeliveredCatalogIsCached` | app/ClientLayout.tsx:45-49 | whatever happens after a call, if the reply it gave delivers a catalog, that catalog is the one in the cache |
| `FontSelection.Effective` | app/ClientLayout.tsx:70-71 | the result is the crazy-mode value when crazy mode is on and that value is truthy, and the preference otherwise; it is always one of the two |
| `FontSelection.EffectiveOverrideIff` | app/ClientLayout.tsx:70-71 | when the two values differ, the crazy-mode value is in effect if and only if crazy mode is on and the value is truthy |
| `FontSelection.FirstMatch` | app/ClientLayout.tsx:80-82 | the index returned names an entry with the font's name and no earlier entry has that name; None exactly when no entry has the name |
| `FontSelection.FontClassName` | app/ClientLayout.tsx:77-89 | the class of the first loaded entry named like the effective font; otherwise, if the catalog is not loaded or has no such entry, the default font's class |
| `FontSelection.ClassNameIsDefaultOrMatching` | app/ClientLayout.tsx:77-89 | the class is always the default's or that of a catalog entry that has the effective font's name |
| `FontSelection.FirstOfDuplicatesWins` | app/ClientLayout.tsx:80-83 | when several entries share the font's name, the earliest one decides the class |
| `FontSelection.LookupIgnoresOtherEntries` | app/ClientLayout.tsx:80-83 | entries after a match, and entries with other names before it, do not change the class |
| `FontSelection.LayoutFontClass` | app/ClientLayout.tsx:71-89 | with crazy mode on and a truthy active font name, the class comes from the active font name; in every other case (crazy mode off, or an empty active font name) it comes from the user's font |
| `FontSelection.CrazyFontWinsWhenLoaded` | app/ClientLayout.tsx:71-83 | in crazy mode, a non-empty active font name that is in the loaded catalog decides the class, whatever the user's own font is |
| `FontsEffect.CleanupFreezesFontsModule` | app/ClientLayout.tsx:114-126 | after the cleanup has cleared the flag, later completions leave `fontsModule` unchanged and the flag stays cleared |
| `FontsEffect.FailuresOnlyLog` | app/ClientLayout.tsx:117-119 | failed loads leave the flag and `fontsModule` unchanged; the log grows by one entry per failure, and the i-th new entry is the i-th failure's cause |
| `FontsEffect.StoredFontsWereLoaded` | app/ClientLayout.tsx:113-116 | the stored list is either the initial state or a list that one of the loads delivered |
| `FontsEffect.AwaitedFontsAreCached` | app/ClientLayout.tsx:113-115 | the list the effect's await yields, after a call made in any loader state and any later loader events, is exactly the catalog in the loader's cache |
| `FontsEffect.InitFontsEffect.constructor` | app/ClientLayout.tsx:108-122 | the effect has run: the flag is set and the component state is unchanged |
| `FontsEffect.InitFontsEffect.Cleanup` | app/ClientLayout.tsx:124-126 | the cleanup clears the flag and changes nothing else |
| `FontsEffect.InitFontsEffect.Complete` | app/ClientLayout.tsx:113-116 | the loaded list is stored in `fontsModule` only while the flag is set; nothing else changes |
| `FontsEffect.InitFontsEffect.Fail` | app/ClientLayout.tsx:117-119 | a failure appends its cause to the log and changes nothing else |
| `FontsEffect.InitFontsEffect.Settle` | app/ClientLayout.tsx:111-120 | the await ends as the loader's state says: a delivered catalog is stored while mounted, a rejection is logged, a pending promise changes nothing; a catalog stored from a promise is the loader's cached one |
| `FontsEffect.MountAndLoad` | app/ClientLayout.tsx:108-122 | the effect runs, calls the loader and settles; from any loader state it ends holding exactly the loader's cache, a cached catalog is left as it was, an import in flight or newly started is cached with the loaded catalog, a loader whose import was rejected is left unchanged (no retry) while the effect logs the cause, nothing is logged otherwise, and at most one import exists |

## Left out

- The dynamic `import(...)` of the fonts data module is not modelled. Neither is the construction of the default font by `Zen_Maru_Gothic`. Both are bundler and library behaviour. The import is an abstract event that settles a promise, and the default font's class name is a parameter.
- The loader's reply does not model promise identity. `loadFontsModule` is `async`, so each caller gets a fresh promise that adopts the stored one. The model returns the stored promise's name (`Await`), which settles the same way.
- Settling a promise that is not in flight, or one that does not exist, changes nothing. This follows JavaScript promises, which settle once.
- `console.error` is modelled as a log of the failure causes (`logged`). The error object's formatting is not modelled.
- React's scheduling is not modelled: `useMemo` dependencies, effect ordering, and re-renders. One run of the mount effect is one `InitFontsEffect` object. State written by `setFontsModule` is written at once.
- `applyTheme` is not modelled. Neither are `window.history.scrollRestoration`, the crazy-mode randomisation on navigation, the Howler `AudioContext` resume handler or `useVisitTracker`. All are DOM and browser side effects, or calls into code that is not part of this model.
- The adaptive selector's `ensureLoaded()` (app/ClientLayout.tsx:129-134) is not modelled. The implementation of `getGlobalAdaptiveSelector` is not part of this model, so its contract is not stated from this call site.
- The JSX tree and the `clsx` composition are not modelled. Neither are the child components or the achievements barrel modules (`features/Achievements/components/index.ts`, `features/Achievements/components/progress/index.ts`). These are UI code and re-exports with no logic.
- The preference and crazy-mode stores are not modelled. Their values (`theme`, `font`, `isCrazyMode`, `activeThemeId`, `activeFontName`) are parameters, and the crazy-mode values are strings whose only falsy value is the empty one.
