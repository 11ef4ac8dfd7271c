# Markdown editor PWA: a Dafny model

This project models the three pieces of logic behind a browser markdown editor that
works offline:

- **The editor** (`MarkdownEditor`). The toolbar buttons splice markdown syntax into the
  document around the selection and move the caret. The word and character counters are
  derived from the text. The theme switch flips a flag, and "new document" clears the
  text after confirmation.
- **The service worker.**
  - Its install handler fills a static cache from a fixed manifest.
  - Its activate handler deletes the caches of earlier versions.
  - Its fetch handler answers requests from the caches or the network and writes
    successful responses back.
  - Its message handler lets the page ask it to skip waiting.
- **The PWA manager** (`PWAManager`). It keeps the browser's deferred install prompt,
  shows and hides the install and update buttons, follows the online/offline state,
  posts messages to service workers, and turns the launch URL's `action` parameter into
  a `pwa-action` event.

Files:

- `wrappers.dfy` holds `Option`.
- `js_text.dfy` (module `JsText`) models the JavaScript string built-ins the editor calls.
  These are `trim`, `split(/\s+/)`, `indexOf`, `lastIndexOf`, and `replace` with a string
  pattern, including its `$`-pattern substitution.
- `editor.dfy`, `service_worker.dfy` and `pwa_manager.dfy` hold the three components.

Each component is an imperative class whose methods update its fields. Each method's
contract ties the new state to a specification function of the old state:

- `ApplyButton` for the editor;
- `Opened`, `Put`, `Deleted`, `Evict`, `InstallSpec` and `FetchStep` for the service worker;
- `Next` for the PWA manager.

The lemmas then prove what the source promises about those functions.

Modelling choices:

- **Cache storage is ordered.** It is a list of cache names in creation order, plus a
  map from cache name to a map from request URL to response. `caches.match` searches the
  caches in that order.
- **The network is an oracle** from absolute URL to either a response (any status) or a
  failure.
- **Platform facts the pages read** become method parameters:
  - the prompt's outcome, and the answer to the confirmation dialog;
  - the registration's waiting and active workers;
  - whether a controller exists;
  - `navigator.onLine` and `prefers-color-scheme`.
- **`addAll` is all-or-nothing.** It stores its responses only when every fetch settles
  to a response with an ok status (200 to 299) other than 206. This follows the `addAll`
  algorithm of the W3C Service Workers specification, section "Cache".
- **`setSelectionRange` conversion.** The caret position passes through WebIDL's
  `unsigned long` conversion (modulo 2^32) and is then clamped to the text length.

## Model

| member | source | states |
|---|---|---|
| JsText.IsSpace | src/scripts/editor.js:138-139 | the whitespace set of `trim` and `\s`: the ECMAScript WhiteSpace and LineTerminator characters |
| JsText.LeadingSpace | src/scripts/editor.js:138 | the count of leading whitespace is a prefix of whitespace followed by a non-whitespace character or the end |
| JsText.TrailingSpace | src/scripts/editor.js:138 | the count of trailing whitespace covers only whitespace and stops at a non-whitespace character or the start |
| JsText.TrimIsSlice | src/scripts/editor.js:138 | `trim` returns the contiguous slice that starts right after the leading whitespace |
| JsText.TrimCutsSpaceAfter | src/scripts/editor.js:138 | everything `trim` removes after the kept slice is whitespace |
| JsText.TrimEnds | src/scripts/editor.js:138 | a non-empty trimmed text neither starts nor ends with whitespace |
| JsText.TrimBlank | src/scripts/editor.js:138 | the trimmed text is empty exactly when the whole text is whitespace |
| JsText.Trim | src/scripts/editor.js:138 | `trim` drops the leading and the trailing whitespace of the ECMAScript set; TrimIsSlice, TrimCutsSpaceAfter, TrimEnds and TrimBlank pin the result down |
| JsText.FirstSpace | src/scripts/editor.js:139 | the first split point is the first whitespace character, or the end when there is none |
| JsText.SplitOnSpace | src/scripts/editor.js:139 | `split(/\s+/)` always yields at least one piece |
| JsText.IndexFrom | src/scripts/editor.js:173 | the search from `from` returns the least index at or after `from` where the pattern occurs, or -1 when it occurs nowhere there |
| JsText.IndexOf | src/scripts/editor.js:173 | `indexOf` returns the first index where the pattern occurs, or -1 exactly when it never occurs |
| JsText.LastIndexOf | src/scripts/editor.js:163 | `lastIndexOf` returns an index holding the character with none after it, or -1 when it is absent |
| JsText.Substitution | src/scripts/editor.js:172 | GetSubstitution for a string pattern: `$$` gives `$`, `$&` the matched text, `` $` `` the text before the match, `$'` the text after it, and every other character is copied; SubstitutionWithoutDollar shows a `$`-free replacement is copied unchanged |
| JsText.ReplaceFirst | src/scripts/editor.js:172 | `replace` with a string pattern: only the first occurrence is replaced, by the replacement after GetSubstitution, and a text without the pattern is returned as it is; ReplaceAgreesWithoutDollar relates it to literal replacement |
| JsText.SubstitutionWithoutDollar | src/scripts/editor.js:172 | a replacement string without `$` passes through GetSubstitution unchanged |
| JsText.ReplaceFirstLiteral | src/scripts/editor.js:172 | a literal replacement of the first occurrence keeps the text before and after the match, puts the replacement where the pattern was and changes the length by the difference; without a match the text is returned as it is |
| JsText.ReplaceAgreesWithoutDollar | src/scripts/editor.js:172 | `replace` with a `$`-free replacement equals literal replacement of the first occurrence |
| Editor.ToolbarButtons | src/scripts/editor.js:22-32 | the nine toolbar buttons in toolbar order, each with its name, its syntax and the one flag that decides its kind (wrap, prefix, template or block) |
| Editor.DefaultContent | src/scripts/editor.js:19 | the welcome document every session starts with, line for line |
| Editor.OrText | src/scripts/editor.js:159 | the placeholder "text" stands in exactly for an empty selection |
| Editor.LineStart | src/scripts/editor.js:162-163 | the line start is at or before `start`, directly follows a newline or is 0, and no newline lies between it and `start` |
| Editor.TemplateAsWritten | src/scripts/editor.js:172 | the template button's text as the source computes it, with the selection going through `replace`'s `$`-pattern substitution; the as-written half of the finding below (LinkLosesDollarSelection) |
| Editor.TemplateText | src/scripts/editor.js:172 | the template button's text with the selection taken literally, the corrected half of the finding; LinkText shows it yields `[t](url)` for the Link button |
| Editor.Insertion | src/scripts/editor.js:157-182 | the text a wrap, template, block or plain button puts in place of the selection, taking "text" for an empty selection; WrapButton, LinkButtonSplice and CodeBlockSplice state what it is for each button |
| Editor.Cursor | src/scripts/editor.js:157-182 | the caret the source asks for: `start + \|syntax\|` for wrap and plain buttons, the first "url" of the insertion for a template and one past its first newline for a block, both indices into the insertion itself |
| Editor.ApplyButton | src/scripts/editor.js:151-188 | the requested caret lies within the new text; only a template can ask for -1 |
| Editor.Caret | src/scripts/editor.js:186 | the caret always lies within the text and equals the requested position whenever that position is within the text |
| Editor.NonPrefixIsSplice | src/scripts/editor.js:184 | every non-prefix button replaces exactly `[start, end)` by its insertion, keeping the text before and after in place |
| Editor.WrapButton | src/scripts/editor.js:158-160 | a wrap button surrounds the selection (or "text") with its syntax, keeps the rest, and puts the caret at `start + \|syntax\|` |
| Editor.PrefixButton | src/scripts/editor.js:161-165 | a prefix button inserts its syntax at the line start only: the length grows by `\|syntax\|` and removing the syntax gives back the document |
| Editor.PrefixCaret | src/scripts/editor.js:167 | after a prefix button the caret is at `start + \|syntax\|`, in front of the character that followed the old caret |
| Editor.LinkSyntaxTextAt | src/scripts/editor.js:28 | "text" first occurs in the Link syntax at index 1 |
| Editor.LinkText | src/scripts/editor.js:172 | the Link template yields `[t](url)`, where `t` is the selection, or "text" when it is empty |
| Editor.UrlInLinkText | src/scripts/editor.js:173 | in `[t](url)` the first "url" lies at most at `\|t\|+3`, and exactly there when `t` has no `u` |
| Editor.LinkButtonSplice | src/scripts/editor.js:171-173 | the Link button's insertion is `[t](url)`, and the caret is the first "url" of that insertion, independent of `start` |
| Editor.CodeBlockSplice | src/scripts/editor.js:174-178 | the code block fences the selection, or is the empty fence; either way the caret is 4 |
| Editor.LinkLosesDollarSelection | src/scripts/editor.js:172 | as written, a `$&` selection comes out as "[text](url)", while the literal template keeps it |
| Editor.TemplateAgreesWithoutDollar | src/scripts/editor.js:172 | the as-written and the literal template coincide for every selection without `$` |
| Editor.InsertionAsWritten | src/scripts/editor.js:171-172 | for every selection without `$`, the template button's insertion is exactly the text the source computes |
| Editor.WordCount | src/scripts/editor.js:137-139 | the word counter: 0 for a blank document, otherwise the number of pieces of `trim().split(/\s+/)`; WordCountIsRuns proves it counts the words |
| Editor.WordCountIsRuns | src/scripts/editor.js:137-139 | the word count equals the number of maximal non-whitespace runs, of the trimmed and of the whole text, and is 0 exactly for blank text |
| Editor.SplitCountsRuns | src/scripts/editor.js:139 | splitting a text with no whitespace at its ends yields one piece per word |
| Editor.RunsOfTrim | src/scripts/editor.js:138 | trimming never changes the number of words |
| Editor.RunsBetweenSpace | src/scripts/editor.js:138 | whitespace around a text adds no word |
| Editor.RunsAppend | src/scripts/editor.js:139 | words add up across a boundary that falls at whitespace |
| Editor.RunsSpacePrefix | src/scripts/editor.js:139 | leading whitespace adds no word |
| Editor.RunsSolid | src/scripts/editor.js:139 | a non-empty text without whitespace is one word |
| Editor.RunsAllSpace | src/scripts/editor.js:139 | an all-whitespace text has no word |
| Editor.MarkdownEditor.constructor | src/scripts/editor.js:13-44 | a new editor holds the default document, takes its theme from the colour-scheme preference, has the caret at the end, and shows the counts of that document |
| Editor.MarkdownEditor.LoadContent | src/scripts/editor.js:68-72 | loading sets the default document and puts the caret at its end |
| Editor.MarkdownEditor.UpdateCounts | src/scripts/editor.js:137-143 | the counters show the word count and the length of the document |
| Editor.MarkdownEditor.OnInput | src/scripts/editor.js:76-81 | an input event adopts the textarea's value and selection and refreshes the counters |
| Editor.MarkdownEditor.Select | src/scripts/editor.js:152-153 | the selection the button handler reads is the textarea's current selection |
| Editor.MarkdownEditor.InsertMarkdown | src/scripts/editor.js:151-188 | a button click leaves `ApplyButton`'s document, with the caret collapsed where `setSelectionRange` puts it, refreshed counters and the theme unchanged |
| Editor.MarkdownEditor.SetValue | src/scripts/editor.js:184-187 | writing an edit back sets the value, collapses the selection at the converted caret and refreshes the counters |
| Editor.MarkdownEditor.ToggleTheme | src/scripts/editor.js:197-198 | the theme flag is negated |
| Editor.ToggleThemeTwice | src/scripts/editor.js:197-198 | toggling twice restores the theme and leaves the document alone |
| Editor.MarkdownEditor.NewDocument | src/scripts/editor.js:209-216 | a non-blank document the user declines to clear is kept unchanged; otherwise the document, the caret and the counters become empty or zero |
| ServiceWorker.StaticCacheName | public/service-worker.js:3 | the name of this version's static cache, "static-v1.0.0" |
| ServiceWorker.DynamicCacheName | public/service-worker.js:4 | the name of this version's dynamic cache, "dynamic-v1.0.0" |
| ServiceWorker.StaticFiles | public/service-worker.js:7-15 | the seven manifest entries in order: five paths relative to the origin and two absolute URLs |
| ServiceWorker.MatchIn | public/service-worker.js:76 | `caches.match` misses exactly when no cache holds the key, and otherwise returns the entry of the first cache, in creation order, that holds it |
| ServiceWorker.MatchAll | public/service-worker.js:76 | `caches.match` searches all caches in creation order; MatchIn, MatchFindsHeld and MissAfterOpen state what it finds |
| ServiceWorker.Lookup | public/service-worker.js:98 | `cache.match` on one cache: the stored response for the key, or none |
| ServiceWorker.Opened | public/service-worker.js:22 | `caches.open` returns the existing cache, or creates it empty and last in order; OpenedWellFormed and OpenedAddsNothing state its effect |
| ServiceWorker.Put | public/service-worker.js:92 | `cache.put` sets one key of one cache; PutNewEntry states its effect after a miss |
| ServiceWorker.Deleted | public/service-worker.js:49 | `caches.delete` removes the cache and its name, keeping the order of the others; ActivateDeletes uses it for each stale name |
| ServiceWorker.Without | public/service-worker.js:49 | removing names keeps exactly the names not removed |
| ServiceWorker.WithoutDistinct | public/service-worker.js:49 | removing names from a list without repeats leaves a list without repeats |
| ServiceWorker.WithoutTwice | public/service-worker.js:46-50 | deleting names one after another equals deleting them all at once |
| ServiceWorker.WithoutAbsent | public/service-worker.js:46-50 | deleting names that do not exist changes nothing |
| ServiceWorker.ActivatePrefixWellFormed | public/service-worker.js:46-50 | the storage stays well formed at every point of the activate loop |
| ServiceWorker.StaleStep | public/service-worker.js:47 | the names deleted so far grow by the name just inspected exactly when it is not current |
| ServiceWorker.ActivateDeletes | public/service-worker.js:47-49 | looking at a stale name deletes that cache |
| ServiceWorker.ActivateStep | public/service-worker.js:46-50 | each loop step deletes a stale cache and keeps a current one |
| ServiceWorker.ActivateStart | public/service-worker.js:44 | before the loop nothing is deleted |
| ServiceWorker.ActivateEnd | public/service-worker.js:44-52 | after the loop the storage is the evicted storage |
| ServiceWorker.IsCurrent | public/service-worker.js:47 | a cache name is current exactly when it is the static or the dynamic cache name of this version |
| ServiceWorker.Stale | public/service-worker.js:45-48 | the names the activate handler deletes: every listed name that is neither current name |
| ServiceWorker.Evict | public/service-worker.js:44-52 | the storage the activate handler leaves: every cache whose name is neither current name is deleted; EvictKeepsCurrent and EvictIdempotent state its properties |
| ServiceWorker.EvictKeepsCurrent | public/service-worker.js:44-52 | after activation the cache names are the old names intersected with {static-v1.0.0, dynamic-v1.0.0}, with their contents untouched |
| ServiceWorker.EvictIdempotent | public/service-worker.js:44-52 | activating twice leaves what activating once leaves |
| ServiceWorker.Resolve | public/service-worker.js:7-15 | a manifest entry starting with `/` is fetched and stored under the worker's origin followed by the entry, any other entry as it is |
| ServiceWorker.ManifestUrls | public/service-worker.js:7-15 | one URL per manifest entry, resolving the entries that start with `/` against the worker's origin |
| ServiceWorker.PutAll | public/service-worker.js:25 | `addAll`'s store phase: each URL put in order under its network response; PutAllStores states the result |
| ServiceWorker.PutAllStores | public/service-worker.js:25 | storing a list of URLs stores each under its own network response and leaves every other key as it was |
| ServiceWorker.OpenedWellFormed | public/service-worker.js:22 | `caches.open` returns the existing cache or a new empty one, keeps every other cache, and keeps the storage well formed |
| ServiceWorker.AddAllAccepts | public/service-worker.js:25 | `addAll` accepts a fetch that settles to a response with status 200 to 299 other than 206 |
| ServiceWorker.AddAllSucceeds | public/service-worker.js:25 | `addAll` of the manifest succeeds exactly when it accepts the fetch of every resolved manifest URL |
| ServiceWorker.InstallSpec | public/service-worker.js:18-33 | the install handler's storage: the static cache is opened in any case, and the whole manifest is stored there only when `addAll` accepts every response; InstallStoresManifest and InstallFailureStoresNothing state both cases |
| ServiceWorker.InstallStoresManifest | public/service-worker.js:22-30 | a successful install leaves every manifest entry in the static cache under its resolved URL with the network's response, and every other cache untouched |
| ServiceWorker.InstallFailureStoresNothing | public/service-worker.js:22-33 | a failed install only opens the static cache, and some manifest response was indeed unacceptable |
| ServiceWorker.Intercepted | public/service-worker.js:65-73 | the handler answers exactly the GET requests whose protocol starts with "http" |
| ServiceWorker.IsStaticRequest | public/service-worker.js:85 | a request is a manifest request when its path or its full URL is a manifest entry |
| ServiceWorker.RouteCache | public/service-worker.js:85-112 | a manifest request's response is written to the static cache, any other to the dynamic cache |
| ServiceWorker.FetchStep | public/service-worker.js:61-122 | the fetch handler: pass-through, a cache hit, or the static or the dynamic network route with write-back on status 200 and a cache fallback on failure; the lemmas from PassThroughTouchesNothing to FetchKeepsStoredOk state its properties |
| ServiceWorker.PassThroughTouchesNothing | public/service-worker.js:66-73 | a non-GET or non-http request gets no answer and touches neither the caches nor the network |
| ServiceWorker.CacheHitIgnoresNetwork | public/service-worker.js:76-82 | a cache hit is served as stored, for any network, with no network use and no change |
| ServiceWorker.NetworkResponseReturned | public/service-worker.js:88-115 | on the network path the page gets the network's response unchanged |
| ServiceWorker.MissAfterOpen | public/service-worker.js:96-99 | after a full miss, the static cache's own lookup misses too |
| ServiceWorker.OfflineMissGivesNoResponse | public/service-worker.js:96-119 | offline, a request that no cache holds is answered with no response, on both routes |
| ServiceWorker.OpenedAddsNothing | public/service-worker.js:86 | opening a cache adds no entry and changes none |
| ServiceWorker.PutNewEntry | public/service-worker.js:92 | storing a fresh key adds exactly that entry and changes nothing else |
| ServiceWorker.FetchWritesBack | public/service-worker.js:85-115 | a fetch loses or overwrites no entry, and the only entry it may add is the request's URL in its route's cache, holding a status-200 network response |
| ServiceWorker.WriteBackRoute | public/service-worker.js:85-112 | after a miss, the URL is stored in the static cache exactly for a manifest request answered with 200, and in the dynamic cache exactly for any other request answered with 200 |
| ServiceWorker.MatchFindsHeld | public/service-worker.js:76 | `caches.match` finds every key held by an existing cache |
| ServiceWorker.CachedStaysAvailable | public/service-worker.js:76-115 | once a response is served from cache or stored with status 200, the same request is served from the cache afterwards, for any network |
| ServiceWorker.InstalledManifestServedOffline | public/service-worker.js:22-30 | after a successful install every manifest file is served from the cache without the network |
| ServiceWorker.FetchKeepsStoredOk | public/service-worker.js:91-93 | a fetch never stores a response with a non-ok status |
| ServiceWorker.InstallKeepsStoredOk | public/service-worker.js:25 | an install never stores a response with a non-ok status |
| ServiceWorker.EvictKeepsStoredOk | public/service-worker.js:44-52 | activation never introduces a response with a non-ok status |
| ServiceWorker.FetchAll | public/service-worker.js:25 | `addAll`'s fetch phase succeeds exactly when every manifest response is acceptable, and then yields one response per URL, in order |
| ServiceWorker.Worker.constructor | public/service-worker.js:1-4 | a starting worker sees the storage earlier versions left, and has requested nothing |
| ServiceWorker.Worker.OpenCache | public/service-worker.js:22 | the worker's storage becomes `Opened` of the old storage |
| ServiceWorker.Worker.PutEntry | public/service-worker.js:92 | the worker's storage becomes `Put` of the old storage |
| ServiceWorker.Worker.DeleteCache | public/service-worker.js:49 | the worker's storage becomes `Deleted` of the old storage |
| ServiceWorker.Worker.StoreAll | public/service-worker.js:25 | `addAll`'s store phase puts every response under its URL, in order |
| ServiceWorker.Worker.Install | public/service-worker.js:18-35 | install leaves `InstallSpec`'s storage, reports whether `addAll` succeeded, and requests skip-waiting exactly on success |
| ServiceWorker.Worker.Activate | public/service-worker.js:38-58 | activate leaves the evicted storage and claims the clients |
| ServiceWorker.Worker.Fetch | public/service-worker.js:61-122 | the fetch handler's outcome, new storage and network use are those of `FetchStep` |
| ServiceWorker.Worker.OnMessage | public/service-worker.js:182-187 | skip-waiting is requested exactly for a message whose type is SKIP_WAITING |
| ServiceWorker.RequestsSkipWaiting | public/service-worker.js:183 | a message asks for skip-waiting exactly when its data is set and its type is SKIP_WAITING |
| ServiceWorker.OtherMessagesIgnored | public/service-worker.js:183 | CLIENT_READY, an untyped message or no data request nothing |
| PwaManager.InstalledMessage | public/pwa-manager.js:117 | the success notice on `appinstalled` |
| PwaManager.OnlineMessage | public/pwa-manager.js:133 | the success notice on `online` |
| PwaManager.OfflineMessage | public/pwa-manager.js:140 | the info notice on `offline` |
| PwaManager.NoPromptMessage | public/pwa-manager.js:161 | the error notice for an install click without a stored prompt |
| PwaManager.InstallingMessage | public/pwa-manager.js:173 | the info notice for an accepted prompt |
| PwaManager.CancelledMessage | public/pwa-manager.js:175 | the info notice for a dismissed prompt |
| PwaManager.InstallFailedMessage | public/pwa-manager.js:182 | the error notice for a prompt that throws |
| PwaManager.UpdatingMessage | public/pwa-manager.js:190 | the info notice for an update click with a waiting worker |
| PwaManager.UrlAction | public/pwa-manager.js:144-157 | the `pwa-action` the launch URL's `action` parameter names, if any; UrlActionIff states the mapping in both directions |
| PwaManager.Initial | public/pwa-manager.js:3-19 | the state once the constructor and `init` have run; InitialState and InitialConsistent state its properties |
| PwaManager.Redraw | public/pwa-manager.js:219-225 | an existing network indicator shows the online flag; without a header there is none to redraw |
| PwaManager.Next | public/pwa-manager.js:104-193 | what each browser event and button click does to the state; the lemmas from PromptStoredAndShown to NetworkTransitions state each case |
| PwaManager.Run | public/pwa-manager.js:104-193 | a trace of events applied one after another; RunConsistent, RunOnlyAppends and PromptComesFromEvent state what every trace keeps |
| PwaManager.UrlActionIff | public/pwa-manager.js:144-157 | `action=new` dispatches NewDocument, `action=export` dispatches ExportDocument, and any other or absent value dispatches nothing |
| PwaManager.InitialState | public/pwa-manager.js:3-19 | a new manager has no prompt and no registration, both buttons hidden, `isOnline` from the platform and empty logs; `action=new` dispatches exactly NewDocument, `action=export` exactly ExportDocument, and any other value nothing |
| PwaManager.PromptStoredAndShown | public/pwa-manager.js:106-110 | `beforeinstallprompt` stores the prompt and shows the install button, and changes nothing else |
| PwaManager.InstallWithoutPrompt | public/pwa-manager.js:160-163 | installing without a prompt only adds the error notice, and the rest of the state is unchanged |
| PwaManager.PromptAnswered | public/pwa-manager.js:169-179 | an answered prompt is cleared and the install button hidden; one info notice says "Installing app..." exactly when accepted |
| PwaManager.PromptThrowKeepsPrompt | public/pwa-manager.js:180-183 | a prompt that throws is kept, and only the error notice is added |
| PwaManager.UpdateShownOnlyWhenReady | public/pwa-manager.js:77-81 | the update button appears exactly when a worker reaches `installed` while a controller exists, and nothing else changes |
| PwaManager.UpdateClickPosts | public/pwa-manager.js:186-193 | an update click changes something exactly when registered with a waiting worker, then posts one SKIP_WAITING to it, shows "Updating app..." and hides the button, and changes nothing else |
| PwaManager.NetworkTransitions | public/pwa-manager.js:128-142 | `online` sets the flag, `offline` clears it, and each redraws an existing indicator and adds exactly one notice, "Back online!" or the offline message, changing nothing else |
| PwaManager.InitialConsistent | public/pwa-manager.js:3-60 | the initial state is consistent: the indicator agrees with the flag, and no install button shows without a prompt |
| PwaManager.NextConsistent | public/pwa-manager.js:104-193 | every event keeps the state consistent |
| PwaManager.RunConsistent | public/pwa-manager.js:104-193 | every trace of events keeps the state consistent |
| PwaManager.NextKeepsNotices | public/pwa-manager.js:227-245 | one event adds at most one notice and removes none |
| PwaManager.NextKeepsPosts | public/pwa-manager.js:186-193 | one event removes no posted message |
| PwaManager.NextOnlyAppends | public/pwa-manager.js:104-193 | one event only appends to the logs |
| PwaManager.RunOnlyAppends | public/pwa-manager.js:104-193 | over any trace the logs only grow, by at most one notice per event |
| PwaManager.PromptComesFromEvent | public/pwa-manager.js:106-110 | a stored prompt was stored before the trace or arrived in a `beforeinstallprompt` of it |
| PwaManager.VisibleInstallButtonHasPrompt | public/pwa-manager.js:160-163 | from any reachable state, clicking a visible install button never meets the missing-prompt error |
| PwaManager.PWAManager.constructor | public/pwa-manager.js:3-19 | construction yields `Initial` |
| PwaManager.PWAManager.ShowNotification | public/pwa-manager.js:227-245 | a notice with the message and kind is appended |
| PwaManager.PWAManager.UpdateNetworkStatus | public/pwa-manager.js:219-225 | an existing indicator is redrawn from `isOnline` |
| PwaManager.PWAManager.OnBeforeInstallPrompt | public/pwa-manager.js:106-111 | the new state is `Next` of the old one on `beforeinstallprompt` |
| PwaManager.PWAManager.OnAppInstalled | public/pwa-manager.js:114-118 | the new state is `Next` of the old one on `appinstalled` |
| PwaManager.PWAManager.OnOnline | public/pwa-manager.js:129-134 | the new state is `Next` of the old one on `online` |
| PwaManager.PWAManager.OnOffline | public/pwa-manager.js:136-141 | the new state is `Next` of the old one on `offline` |
| PwaManager.PWAManager.OnStateChange | public/pwa-manager.js:77-82 | the new state is `Next` of the old one on a worker's `statechange` |
| PwaManager.PWAManager.InstallApp | public/pwa-manager.js:159-184 | the new state is `Next` of the old one on an install click with the given prompt outcome |
| PwaManager.PWAManager.UpdateApp | public/pwa-manager.js:186-193 | the new state is `Next` of the old one on an update click |
| PwaManager.PWAManager.OnRegistered | public/pwa-manager.js:92-94 | the registration is kept, and its active worker, if any, is sent CLIENT_READY |

## Left out

- Rendering and page chrome are not modelled:
  - the textarea, preview and toolbar DOM, and the theme's `data-color-scheme` attribute and icon (src/scripts/editor.js:46-66, 199-206);
  - the install and update buttons' elements (public/pwa-manager.js:21-60).
  Only the state they display is kept: the document, selection, theme flag, counters and button visibility.
- The markdown preview (src/scripts/editor.js:122-135) is not modelled. It calls the external `marked` library.
- The debounce timers, the "Saving..."/"Saved" status (src/scripts/editor.js:106-120, 145-149), the notification timers, and the 30-minute update check (public/pwa-manager.js:248-260, 281-285) are not modelled. These are about timing only.
- Downloading as markdown or HTML and copying HTML (src/scripts/editor.js:218-255) are not modelled. They are browser I/O (blobs, object URLs, clipboard, `alert`).
- `confirm` is the parameter `confirmed` of `NewDocument`.
- `navigator.serviceWorker.register`, the `updatefound` wiring, `update()` and the reload on `controllerchange` are not modelled (public/pwa-manager.js:62-101, 264-273). They are platform plumbing.
  - What the page does with a settled registration is kept: it stores the registration and sends CLIENT_READY to the active worker (`OnRegistered`).
  - A worker's `statechange` is kept (`OnStateChange`).
- The standalone-mode check (public/pwa-manager.js:121-125) is only a constructor parameter. It hides a button that is already hidden at that point.
- The sync, push, notificationclick, error and unhandledrejection handlers (public/service-worker.js:125-180, 189-196) are not modelled. They log, show a system notification (push), close it and, for the `open` action, open a window (notificationclick), and serve no planned feature yet.
- The `CACHE_NAME` constant (public/service-worker.js:2) is not modelled. It is never read.
- Promise timing is not modelled. Each handler runs as one atomic step:
  - `cache.put` in the fetch handler completes before the next event, where the source does not wait for it (public/service-worker.js:92, 109-112);
  - the deletions of the activate handler run one after another, where the source runs them concurrently;
  - an `installApp` waiting for the user is not interleaved with other events.
- URL parsing is not modelled. A request carries its `protocol` and `pathname` as `new URL` reports them.
- Relative manifest entries are resolved by prefixing the worker's origin.
- Cache matching is on the URL alone. `Vary` headers and request options are not modelled.
- Response bodies are opaque strings. `clone()` is not modelled.
- Strings are sequences of Unicode code points, while JavaScript's `length`, `slice` and `setSelectionRange` count UTF-16 code units. The two agree on text without characters outside the Basic Multilingual Plane.
- Editor.Insertion: for the template (Link) button the selection is taken literally (`TemplateText`), the corrected behaviour of the finding below. For a selection holding `$` the source's `replace` expands `$` patterns, so there the model does not give the source's text; `TemplateAsWritten` does, and `InsertionAsWritten` proves the two agree on every selection without `$`.
- Editor.ApplyButton: follows `Insertion`, so for a Link click on a selection holding `$` it gives the corrected document, not the source's.
- Editor.MarkdownEditor.InsertMarkdown: follows `ApplyButton`, with the same divergence on a Link click over a selection holding `$`.
- The `Plain` button kind (the source's final `else`) is modelled, but no toolbar button uses it.

## Findings

| source | as written | input that shows it | evidently intended | confidence | as-written member | corrected member |
|---|---|---|---|---|---|---|
| src/scripts/editor.js:172 | The Link button passes the selected text to `String.prototype.replace` as the replacement string. `$&`, `$$`, `` $` `` and `$'` in the selection are therefore expanded, not inserted. | Select the text `$&` and press Link. The document gets `[text](url)` instead of `[$&](url)`. | The selection goes into the template literally, as `[` + selection + `](url)`. | not executed | Editor.LinkLosesDollarSelection | Editor.LinkButtonSplice |

The editor model uses the corrected, literal template (`Editor.TemplateText`).
`Editor.TemplateAgreesWithoutDollar` and `Editor.InsertionAsWritten` prove that the two
coincide for every selection without `$`.
