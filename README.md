# Search overlay, table of contents and robots.txt of hugokorte.com, in Dafny

This project models the parts of the site's source that hold logic:

- **The search trigger** (`src/components/SearchButton.tsx`). One boolean `open` starts false. The button forces it to true. While the document-level `keydown` listener is registered, Ctrl+K toggles it and calls `preventDefault()`. The dialog's `close` event writes false. The listener is registered on mount and meant to be removed on unmount. `SearchButton.Step` specifies one event. `SearchButton.Trigger` is the component: a class with `open`, `phase` and `listening` fields and one method per event. Each method is proved to follow `Step` and to keep the dialog's modal visibility equal to `open`.
- **The search pipeline** (`search` in `src/components/SearchDialog.tsx`). An empty query returns `[]` and never touches the index. The first non-empty query imports the Pagefind module and runs `init()`, guarded by the module-level `pagefind` handle. Every non-empty query goes through `debouncedSearch(query, {}, 200)`. A falsy answer becomes `[]`. Otherwise the output holds each match's `data()`, in index order. The awaits become sequential steps of `SearchDialog.SearchIndex.Search`. The module-level handle is a field of that class. Pagefind is the `SearchDialog.Pagefind` class: an `init()` counter, a log of lookups, and a fixed answer function. `SearchDialog.SearchStep` and `SearchDialog.RunQueries` give the effect of one query and of a sequential run.
- **The dialog component** (`SearchDialog.Dialog`). It holds the query typed into the input, the results derived from it, and whether the native `<dialog>` is shown as a modal.
- **The table of contents** (`src/components/TableOfContents.tsx`). `getLeftMargin` and `getTextSize` map a heading depth to a class. Each heading becomes one entry with class `margin + " " + size` and link `#slug`.
- **robots.txt** (`src/pages/robots.txt/index.ts`). `getRobotsTxt` joins four strings with `"\n"`: a `User-agent: *` group with one `Allow: /` rule (section 2.2 of RFC 9309), a literal `"\n"`, and the sitemaps.org `Sitemap:` record. The sitemap URL is an input, given as its text.

The model follows the code as written:

- the shortcut checks `ctrlKey` only, not `metaKey`, and matches the key `"k"` case-sensitively;
- there is no outside-click dismissal and no "no results" message;
- the query is not reset when the dialog reopens;
- the code drops no stale responses itself; whatever `createResource` does is library behaviour;
- Ctrl+K toggles, so the trigger writes `false` as well as `true`. `SearchButton.OpenChangesExactly` states exactly which events change `open`.

`SearchButton.Session` and `SearchButton.TypingSession` are client scenarios that check the contracts compose: the first opens the dialog with Ctrl+K, closes it and unmounts; the second searches, clears the query and searches again.

Files: `wrappers.dfy` (Option), `search_dialog.dfy`, `search_button.dfy`, `table_of_contents.dfy`, `robots.dfy`.

## Model

| member | source | states |
|---|---|---|
| `SearchDialog.Collect` | src/components/SearchDialog.tsx:32 | the output has one element per match, and element i is match i's `data()` payload, so index order is kept |
| `SearchDialog.SearchResults` | src/components/SearchDialog.tsx:19-33 | an empty query or a falsy index answer gives `[]`; otherwise the result has one element per match and element i is `data()` of match i |
| `SearchDialog.SearchStep` | src/components/SearchDialog.tsx:19-33 | `search("")` leaves the index state unchanged; any other query leaves the handle set, imports and initialises only when the handle was unset, and appends exactly one lookup with options `{}` and interval 200 |
| `SearchDialog.RunQueriesEffect` | src/components/SearchDialog.tsx:19-33 | over any sequential run of queries, the import and `init()` run once exactly when some query is non-empty and the handle was unset, never otherwise; the lookups issued are exactly the non-empty queries, in order, each with options `{}` and interval 200 |
| `SearchDialog.InitAtMostOnce` | src/components/SearchDialog.tsx:23-27 | from page start, any sequential run of queries imports and initialises the index at most once, and initialises it exactly when some query is non-empty |
| `SearchDialog.SearchIndex.constructor` | src/components/SearchDialog.tsx:17 | the module-level handle starts unset, with no import, no `init()` and no lookup done |
| `SearchDialog.SearchIndex.Search` | src/components/SearchDialog.tsx:19-33 | keeps the invariant "handle set iff imported and initialised exactly once"; its effect on the index is `SearchStep` of the old state; its result is `[]` for an empty query, `[]` for a falsy answer, and the matches' payloads otherwise; an empty query changes nothing |
| `SearchDialog.Dialog.constructor` | src/components/SearchDialog.tsx:36-38 | the dialog starts closed, with query `""` and no results |
| `SearchDialog.Dialog.OnInput` | src/components/SearchDialog.tsx:37-50 | an input event sets the query to the input's value and the results become those of `search` on that query, so they always belong to the latest query; the index state takes one `SearchStep` when the value differs from the current query, and nothing changes when it is equal; visibility is unchanged |
| `SearchDialog.Dialog.Follow` | src/components/SearchDialog.tsx:39 | the effect shows the dialog as a modal when `open` is true and closes it when false |
| `SearchButton.Step` | src/components/SearchButton.tsx:12-26 | only mount and unmount move the life cycle and the listener, only forward, and they leave `open` alone; every event keeps the listener registered exactly while mounted |
| `SearchButton.StepAsWritten` | src/components/SearchButton.tsx:12-22 | as written, each event acts as in `Step` except that unmount keeps the listener; once registered, the listener is never removed |
| `SearchButton.PreventsDefaultExactly` | src/components/SearchButton.tsx:14-19 | `preventDefault` is called exactly for the key events that change the state |
| `SearchButton.ClickOpens` | src/components/SearchButton.tsx:25 | a click sets `open` to true whatever it was, so a second click changes nothing |
| `SearchButton.ShortcutToggles` | src/components/SearchButton.tsx:15-19 | while listening, Ctrl+K calls `preventDefault`, flips `open`, and two presses restore the state |
| `SearchButton.OtherKeysIgnored` | src/components/SearchButton.tsx:15-17 | any key event that is not Ctrl with key `"k"` leaves the state unchanged and does not call `preventDefault` |
| `SearchButton.ShortcutIsCaseSensitiveAndCtrlOnly` | src/components/SearchButton.tsx:15 | no key other than `"k"` (so not `"K"`) and no event without Ctrl is the shortcut, and `metaKey` never matters |
| `SearchButton.DialogCloseCloses` | src/components/SearchDialog.tsx:42 | the dialog's close event sets `open` to false and changes nothing else |
| `SearchButton.OpenChangesExactly` | src/components/SearchButton.tsx:14-26 | `open` changes exactly on a click while closed, a close event while open, or a Ctrl+K that reaches the listener |
| `SearchButton.ShortcutParity` | src/components/SearchButton.tsx:19 | while listening, n Ctrl+K presses leave `open` as it was for even n and flip it for odd n |
| `SearchButton.LastWriterDecides` | src/components/SearchButton.tsx:25-26 | after any event history, a final click leaves the dialog open and a final close event leaves it closed |
| `SearchButton.UnmountedKeysInert` | src/components/SearchButton.tsx:20-21 | once the controller has aborted the listener, no sequence of key events changes the state |
| `SearchButton.UnmountStopsListener` | src/components/SearchButton.tsx:12-21 | mount followed by unmount removes the listener, and key events afterwards change nothing |
| `SearchButton.AsWrittenListenerPersists` | src/components/SearchButton.tsx:12-22 | as written, a registered listener stays registered after any later events, and an unmounted component stays unmounted |
| `SearchButton.AsWrittenListenerOutlivesUnmount` | src/components/SearchButton.tsx:12-22 | as written, after mount, unmount and any later events the listener is still registered, and Ctrl+K still calls `preventDefault` and flips `open` |
| `SearchButton.Trigger.constructor` | src/components/SearchButton.tsx:11 | `open` starts false, the component is not yet mounted, no listener is registered, and the rendered dialog starts closed with an empty query |
| `SearchButton.Trigger.Mount` | src/components/SearchButton.tsx:12-20 | mounting registers the key listener and changes nothing else |
| `SearchButton.Trigger.Unmount` | src/components/SearchButton.tsx:21 | unmounting aborts the listener and changes nothing else |
| `SearchButton.Trigger.Click` | src/components/SearchButton.tsx:25 | the button sets `open` to true and the dialog is shown |
| `SearchButton.Trigger.KeyDown` | src/components/SearchButton.tsx:14-20 | reports `preventDefault` exactly for Ctrl+K while listening, flips `open` exactly then, and the dialog follows |
| `SearchButton.Trigger.DialogClose` | src/components/SearchDialog.tsx:42 | the close event sets `open` to false, the dialog is closed, and the life cycle is unchanged |
| `TableOfContents.MarginFormula` | src/components/TableOfContents.tsx:9-19 | for depths 2 to 6 the margin is 2 * (depth - 2) steps, and depth 2 has no margin class |
| `TableOfContents.IndentIncreases` | src/components/TableOfContents.tsx:10-17 | a deeper heading in 2..6 is indented strictly further |
| `TableOfContents.LeftMargin` | src/components/TableOfContents.tsx:8-21 | depths 3 to 6 give `ml-` followed by the digit 2 * (depth - 2); every other depth gives `""` |
| `TableOfContents.TextSize` | src/components/TableOfContents.tsx:23-38 | the class is `""` exactly for depths outside 2..6; otherwise it is a seven-character `text-*` utility |
| `TableOfContents.TextShrinks` | src/components/TableOfContents.tsx:24-34 | for depths 2 to 6, a deeper heading never gets larger text; text shrinks strictly from h2 to h5, and only h5 and h6 share a size |
| `TableOfContents.Entries` | src/components/TableOfContents.tsx:44-51 | one entry per heading, in input order, each with class margin + " " + size and link `#slug` |
| `TableOfContents.EntryFor` | src/components/TableOfContents.tsx:45-51 | an entry's class splits at its first space back into the margin class and the size class; its link is `#` followed by the slug; its text is the heading's text |
| `Robots.RobotsTxt` | src/pages/robots.txt/index.ts:3-8 | joining the four strings with `"\n"` gives `User-agent: *`, newline, `Allow: /`, three newlines, then `Sitemap: ` and the URL text |
| `Robots.SplitJoin` | src/pages/robots.txt/index.ts:8 | splitting a newline join of newline-free strings at newlines gives the strings back |
| `Robots.Shape` | src/pages/robots.txt/index.ts:3-8 | the body begins with `User-agent: *\nAllow: /`, then exactly three newlines, then ends with `Sitemap: ` and the URL, with no trailing newline |
| `Robots.NewlineCount` | src/pages/robots.txt/index.ts:3-8 | the body holds four newlines plus those in the URL text, so exactly four when the URL has none |
| `Robots.Lines` | src/pages/robots.txt/index.ts:3-8 | for a URL without newlines, the body's lines are `User-agent: *`, `Allow: /`, two empty lines and `Sitemap: <url>` |

## Left out

- Solid's reactivity (`createSignal`, `createEffect`, `createResource`, `Suspense`, `For`) is library behaviour. Signals are fields. The effect is a call to `Dialog.Follow` after each change of `open`. `createResource` is a call to `search` on each change of the query; an input event whose value equals the current query changes nothing, since the signal ignores an equal write. The "Loading..." fallback and any dropping of stale responses inside `createResource` are not modelled.
- Asynchronous interleaving is not modelled. The init guard is not atomic across its awaits: two overlapping first queries can both import and initialise, and a query that arrives while `init()` is pending sees an uninitialised handle. Init-once is proved for sequential queries only.
- `SearchDialog.SearchIndex.Search`: the import and `init()` always succeed. Failure is not modelled. If `init()` rejects, the handle is already set, so no later query initialises again and later lookups run against an uninitialised module. If the import rejects, the handle stays unset and the next non-empty query imports again.
- Debounce timing is not modelled. Pagefind's answer is a fixed function of the query. The `null` that a superseded debounced call yields is folded into that function's `None`.
- Pagefind internals (ranking, the dynamic import path, the fields of `data()` beyond `url` and `content`) belong to a foreign library.
- DOM primitives are not modelled: `HTMLDialogElement` focus and backdrop, `AbortController` itself, `document.addEventListener`, and the `dialog()?.` ref being unset before render. Class strings are text; whether Tailwind defines them (it has no `text-md`) is styling.
- `new URL("sitemap-index.xml", site)` (src/pages/robots.txt/index.ts:11) is WHATWG URL resolution, a foreign call. `Robots.RobotsTxt` takes the URL's text as input.
- Heading depths are integers. JavaScript's `switch` on a fractional depth would also fall to the default case.
- src/content.config.ts (schema declaration), src/pages/rss.xml/index.ts and src/pages/rss.xml.ts (wrappers over `@astrojs/rss`), and astro.config.ts (build configuration) are not part of this model.
- `SearchButton.Trigger.Unmount`: follows the evidently intended behaviour (the listener is aborted), not the code as written; see Findings.

## Findings

| source | as written | input that shows it | evidently intended | confidence | as-written member | corrected member |
|---|---|---|---|---|---|---|
| src/components/SearchButton.tsx:12-22 | the `controller.abort()` cleanup is returned from the `onMount` callback; Solid's `onMount` does not run a returned function as cleanup (that needs `onCleanup`), so the key listener stays registered after unmount | mount, unmount, then a keydown with `ctrlKey` true and key `"k"`: `preventDefault` is still called and `open` flips to true | unmount aborts the controller and the listener is gone | medium: depends on solid-js `onMount` semantics, which are outside this model; not executed | `SearchButton.AsWrittenListenerOutlivesUnmount` | `SearchButton.UnmountStopsListener` |
