# NextGen companion app: title loading and the extras video gallery

A Dafny model of two small pieces of an iOS second-screen app that shows a movie's
"Interactive Media Experience" manifest.

**The example app's data loader (`NextGenDataLoader`)** is modelled in `data_loader.dfy`
(module `DataLoader`). It covers:

- the static registry of supported titles and `supportsContent`;
- how `loadXMLFile` turns a document URL into a local file path. A bundled copy comes
  first, then an existing cache file, then a download. Every failure is `fileMissing`;
- how `loadTitle` throws for an unknown title or a title without a manifest URL;
- how `loadTitle` then resolves and loads the manifest, joins the optional app-data and
  style documents, and which `completion(success, error)` calls the caller receives;
- the configuration keys `loadConfig` extracts;
- the pure hook callbacks: the share URL, the playback asset for a mode, and the iTunes
  search URL used by the filmography hook.

The outside world is passed in as values. `Environment` holds URL parsing, the bundle
lookup, the cache location, cache existence and the download outcome. `Parsers` holds the
manifest library's load outcomes. So every decision is a total function of known
outcomes. The asynchronous promise chain is modelled as a sequential run (`TitleRun`). A
run records the URLs resolved, the documents loaded into the shared manifest, and the
completion calls made, each in order. The spec functions (`LoadXMLFile`, `ManifestChain`,
`TitleOutcome`) state the behaviour. `Loader.LoadTitle` builds the same outcome step by
step, appending to its promise list as the source does, and is proved equal to
`TitleOutcome`.

As the code is written, the completion handler can fire twice. After a structural
manifest error the catch blocks do not return, so the chain goes on to the optional
documents and, when they resolve, also reports success (`StructuralErrorThenSuccess`).
The handler can also never fire: when an optional document cannot be resolved, the
rejection of the discarded join is lost (`OptionalRejectionIsSilent`).

**The extras video gallery (`ExtrasVideoGalleryViewController`)** is modelled in
`video_gallery.dfy` (module `VideoGallery`). It is a class whose fields are the
selection, the share content and the detail widgets' visibility flags and texts. Its
child view controllers may include a `VideoPlayer`. The gallery writes the player's
`curIndex`, `indexMax`, `playerControlsVisible` and `lockTopToolbar`. It also sends the
player commands, kept in order: remove all queue items, then play a URL. The methods are:

- will-select, which refuses the row that is already selected and a row without a cell;
- did-select;
- the UIKit tap flow that joins will-select and did-select;
- the "will play next item" observer.

Each method's contract ties the new state to the spec functions `ShowChild` (the detail
area) and `StartClip` (the player), and the search for the player to `FirstPlayer`.

`basics.dfy` (module `Basics`) holds `Option`, `Result` and `Url`. A `Url` is a
Foundation URL as handed in by the environment: its absolute string, its path and its
last path component.

## Model

| member | source | states |
|---|---|---|
| `DataLoader.SupportsContent` | Example/NextGenExample/NextGenDataLoader.swift:29-41 | a content id is supported exactly when it is "man_of_steel", the only registered title |
| `DataLoader.ShippedTitlesLoad` | Example/NextGenExample/NextGenDataLoader.swift:29-41 | with the shipped registry, loadTitle does not throw exactly for supported ids, and otherwise throws titleNotFound |
| `DataLoader.ConfigString` | Example/NextGenExample/NextGenDataLoader.swift:59-62 | a configuration value is read only when the key is present and holds a string, and it is that string |
| `DataLoader.Loader.LoadConfig` | Example/NextGenExample/NextGenDataLoader.swift:53-74 | a parsed dictionary overwrites both API keys, even with nil when absent; a Google Maps key switches the map service and stores the key; a missing, unparsable or non-dictionary file changes nothing |
| `DataLoader.Loader.constructor` | Example/NextGenExample/NextGenDataLoader.swift:44-51 | a new loader has no product or talent API key |
| `DataLoader.StripXml` | Example/NextGenExample/NextGenDataLoader.swift:164 | removing ".xml" never lengthens a name and leaves a name without ".xml" unchanged; with `StripXmlSplits`, every occurrence is removed, not only a trailing one |
| `DataLoader.StripXmlSplits` | Example/NextGenExample/NextGenDataLoader.swift:164 | every ".xml" is removed wherever it stands: stripping a + ".xml" + b gives the stripped a followed by the stripped b |
| `DataLoader.StripXmlDropsExtension` | Example/NextGenExample/NextGenDataLoader.swift:164 | an appended ".xml" is always removed whole: stripping "name.xml" gives the same as stripping "name" |
| `DataLoader.BundleNameOfXmlFile` | Example/NextGenExample/NextGenDataLoader.swift:164 | a document whose last path component is "x.xml", with no ".xml" inside x, is looked up in the bundle as "Data/Manifests/x" |
| `DataLoader.BundleResourceName` | Example/NextGenExample/NextGenDataLoader.swift:164 | the bundle lookup name is "Data/Manifests/" followed by the last path component with ".xml" removed: never longer than the two together, and exactly the two together when the component holds no ".xml" |
| `DataLoader.BundleNameDropsInteriorXml` | Example/NextGenExample/NextGenDataLoader.swift:164 | a ".xml" inside the file name is removed too: "foo.xml.bak" is looked up as "Data/Manifests/foo.bak" |
| `DataLoader.LoadXMLFile` | Example/NextGenExample/NextGenDataLoader.swift:161-188 | an unparsable URL gives fileMissing; every failure is fileMissing; a resolved path is the bundled copy, the cache file or the downloaded file |
| `DataLoader.BundledCopyWins` | Example/NextGenExample/NextGenDataLoader.swift:163-165 | a bundled copy is returned whatever the cache location, the cache contents and the download outcome |
| `DataLoader.CachedCopyBeforeDownload` | Example/NextGenExample/NextGenDataLoader.swift:166-171 | without a bundled copy, an existing cache file is returned whatever the download would give |
| `DataLoader.DownloadIsLastResort` | Example/NextGenExample/NextGenDataLoader.swift:172-180 | without a bundled or cached copy, the result is the downloaded file, or fileMissing when the download yields nothing |
| `DataLoader.NoCacheLocationIsMissing` | Example/NextGenExample/NextGenDataLoader.swift:166-183 | without a bundled copy and without a cache location the document is missing, even when a download would succeed |
| `DataLoader.WhenFulfilled` | Example/NextGenExample/NextGenDataLoader.swift:123 | the join succeeds exactly when every promise is fulfilled, and then yields all values in promise order; otherwise it rejects with one of the promises' errors |
| `DataLoader.OptionalPromises` | Example/NextGenExample/NextGenDataLoader.swift:110-120 | one promise per declared optional document: app data, then style |
| `DataLoader.UnpackOptional` | Example/NextGenExample/NextGenDataLoader.swift:124-133 | with app data declared, app data takes the first result and style the last, and only when there are two; without app data, style takes the first result |
| `DataLoader.UnpackPairsEachDocumentWithItsPath` | Example/NextGenExample/NextGenDataLoader.swift:110-133 | when the join succeeds, each declared document gets its own resolved path and an undeclared one gets none |
| `DataLoader.OptionalDocuments` | Example/NextGenExample/NextGenDataLoader.swift:110-155 | the optional-document branch makes at most one completion call, and that call is completion(true, nil) |
| `DataLoader.ManifestChain` | Example/NextGenExample/NextGenDataLoader.swift:80-158 | the chain resolves the manifest URL first and makes at most two completion calls |
| `DataLoader.TitleOutcome` | Example/NextGenExample/NextGenDataLoader.swift:76-79 | an unregistered id throws titleNotFound and a registered id without a manifest URL throws manifestMissing, in both cases before any document is resolved; otherwise the chain runs and starts with the manifest URL |
| `DataLoader.Loader.LoadTitle` | Example/NextGenExample/NextGenDataLoader.swift:76-159 | the step-by-step loadTitle gives exactly the specified outcome |
| `DataLoader.ManifestFetchRejected` | Example/NextGenExample/NextGenDataLoader.swift:156-158 | a rejected manifest fetch reaches the outer catch: the only completion is completion(false, fileMissing), nothing is loaded and no other document is resolved |
| `DataLoader.ManifestErrorReported` | Example/NextGenExample/NextGenDataLoader.swift:96-108 | any error thrown while loading the manifest, structural or not, is reported unchanged as the first completion, completion(false, error), and the manifest is not recorded as loaded |
| `DataLoader.StructuralErrorThenSuccess` | Example/NextGenExample/NextGenDataLoader.swift:96-155 | after a structural error, if the optional documents all resolve, the caller hears completion(false, error) and then completion(true, nil) |
| `DataLoader.NoOptionalDocuments` | Example/NextGenExample/NextGenDataLoader.swift:153-155 | with no optional document declared, a manifest that loads gives exactly completion(true, nil) |
| `DataLoader.OptionalParseErrorsSwallowed` | Example/NextGenExample/NextGenDataLoader.swift:135-151 | the outcomes of loading the app-data and style files never change the completion calls |
| `DataLoader.OptionalRejectionIsSilent` | Example/NextGenExample/NextGenDataLoader.swift:122-123 | if a declared optional document cannot be resolved, no success completion is made; only a manifest error, if any, is reported |
| `DataLoader.SuccessSignalledIffAllResolve` | Example/NextGenExample/NextGenDataLoader.swift:80-158 | completion(true, nil) is made exactly when the manifest and every declared optional document resolve |
| `DataLoader.CleanLoadCompletesOnce` | Example/NextGenExample/NextGenDataLoader.swift:90-151 | a manifest that loads without error, with every optional document resolving, gives exactly one completion, success, and the manifest is loaded first |
| `DataLoader.ParseSharedContentUrl` | Example/NextGenExample/NextGenDataLoader.swift:220-231 | a text read back as a share URL is exactly the share URL of the type and id it yields |
| `DataLoader.SharedContentUrl` | Example/NextGenExample/NextGenDataLoader.swift:220-231 | the share URL text starts with the host "your-domain.com" followed by a path, and ends with the item's id |
| `DataLoader.UrlForSharedContent` | Example/NextGenExample/NextGenDataLoader.swift:220-231 | the share URL is "your-domain.com", then "/share/images" for an image or "/share/videos" otherwise, then "/" and the id; type and id can be read back from it |
| `DataLoader.SharedContentUrlRoundTrip` | Example/NextGenExample/NextGenDataLoader.swift:220-231 | parsing a share URL gives back its type and id |
| `DataLoader.PlaybackAssetFor` | Example/NextGenExample/NextGenDataLoader.swift:241-249 | the asset id is always the requested URL's absolute string; only the main feature is replaced by the demo stream and its title; other modes keep URL, title and image URL |
| `DataLoader.SearchTerm` | Example/NextGenExample/NextGenDataLoader.swift:258 | the search term has the title's length, with every space replaced by '+' and every other character kept |
| `DataLoader.FilmographySearchUrl` | Example/NextGenExample/NextGenDataLoader.swift:258 | the iTunes search URL is the fixed query prefix followed by the search term, and no space follows the prefix |
| `VideoGallery.StartClip` | NextGen/Extras/ExtrasVideoGalleryViewController.swift:142-153 | starting clip row of n sets curIndex to row and indexMax to n, so 0 <= curIndex < indexMax; it hides the controls and locks the toolbar; earlier commands are kept, the queue is emptied when present, and the last command plays the clip |
| `VideoGallery.FirstPlayer` | NextGen/Extras/ExtrasVideoGalleryViewController.swift:76-84 | the player found is a child controller with no player before it; none is found only when no child is a player |
| `VideoGallery.Gallery.VideoPlayerViewController` | NextGen/Extras/ExtrasVideoGalleryViewController.swift:76-84 | the loop over the child controllers returns the first player, which is one of the gallery's players |
| `VideoGallery.ShowChild` | NextGen/Extras/ExtrasVideoGalleryViewController.swift:124-140 | after a selection the video container, title, description and share button are visible; the runtime label is visible exactly when runtime > 0, with text "Runtime: " + timeString(runtime); the title and description texts are the child's |
| `VideoGallery.Gallery.constructor` | NextGen/Extras/ExtrasVideoGalleryViewController.swift:37-48 | after loading, nothing is selected and the whole detail area is hidden; the label texts are the storyboard's, unchanged |
| `VideoGallery.Gallery.NumberOfRows` | NextGen/Extras/ExtrasVideoGalleryViewController.swift:102-104 | the table has one row per child experience; the child list is immutable, so the count never changes |
| `VideoGallery.Gallery.WillSelectRow` | NextGen/Extras/ExtrasVideoGalleryViewController.swift:112-120 | a row is accepted, as the same row, exactly when its cell exists and is not already selected |
| `VideoGallery.Gallery.DidSelectRow` | NextGen/Extras/ExtrasVideoGalleryViewController.swift:122-154 | the detail area becomes ShowChild of the child; with a video URL and a player, the player gets StartClip and shareContent becomes the URL; otherwise shareContent and every player are unchanged |
| `VideoGallery.VideoPlayer.PrepareToPlay` | NextGen/Extras/ExtrasVideoGalleryViewController.swift:143-151 | an abstract step of the player after a clip is requested: afterwards the player has its `player` object, so the `if let player` check at line 143 succeeds on the next selection and the queue is emptied; the index, flags and command log are unchanged |
| `VideoGallery.Gallery.StartClipOn` | NextGen/Extras/ExtrasVideoGalleryViewController.swift:143-151 | the player updates of did-select leave the player in the StartClip state |
| `VideoGallery.Gallery.SelectRowByTap` | NextGen/Extras/ExtrasVideoGalleryViewController.swift:112-154 | an accepted tap selects the row and applies did-select; a refused tap, on the selected row or a row without a cell, changes nothing |
| `VideoGallery.Gallery.OnWillPlayNextItem` | NextGen/Extras/ExtrasVideoGalleryViewController.swift:65-73 | a notification whose index is a row selects that row and applies did-select; a notification without an index, or with an index outside the rows, changes nothing |
| `VideoGallery.NextItemGuardAsWritten` | NextGen/Extras/ExtrasVideoGalleryViewController.swift:67 | the observer's guard as written admits every row, and also every negative index |
| `VideoGallery.AsWrittenGuardAdmitsNegativeIndex` | NextGen/Extras/ExtrasVideoGalleryViewController.swift:67 | the observer's guard `index < count` lets index -1 through, and -1 is not a row |
| `VideoGallery.GuardsAgreeOnNaturals` | NextGen/Extras/ExtrasVideoGalleryViewController.swift:67 | for non-negative indices the corrected guard and the guard as written agree |

## Left out

- File I/O and JSON parsing in `loadConfig`, and `GMSServices.provideAPIKey`. They are a foreign library and disk I/O. The parsed file, or its absence, is an input.
- The API utility setup in `loadTitle`: `TheTakeAPIUtil` and `BaselineAPIUtil` construction, `featureAPIID`, `loadProductData` and `loadTalentData`. These are external clients; only the manifest loader's outcome is an input.
- The XML parsing itself. The three manifest library loaders are oracles giving success or the thrown error. A failed load is modelled as leaving nothing recorded in the shared manifest.
- `NextGenCacheManager` storage and downloads. The fire-and-forget cache refresh after a cache hit is omitted, because its outcome is ignored.
- URL parsing (`URL(string:)`, `lastPathComponent`, `path`) is Foundation code. The environment supplies it.
- Threading and timing of the promise chain. The chain is run sequentially over settled outcomes.
- `WhenFulfilled`: rejects with the earliest rejection in array order, not the earliest in time. The source discards this rejection, so nothing observable depends on it.
- `UrlForSharedContent`: returns the text handed to `URL(string:)`. Whether Foundation accepts that text, when an id holds characters a URL cannot, is not modelled.
- The iTunes lookup network request, the JSON parsing, the progress HUD and the alerts of the filmography hook. Only the search URL text is modelled.
- The `MPNowPlayingInfoCenter` reset in `didFinishPlayingAsset`, the commented-out analytics, and the empty hook callbacks. These are side effects or no-ops.
- `playVideoWithURL`'s own behaviour inside the player is not part of this model, and the player version the gallery drives (with `playVideoWithURL`, `curIndex`, `indexMax` and `lockTopToolbar`) is not among the files modelled. The gallery's call is recorded as a `PlayVideo` command. The one part modelled is `VideoPlayer.PrepareToPlay`: the player gets its `player` object at some later point. That step follows a later version of the player, which creates its `AVPlayer` in `prepareToPlay` when it has none.
- `ChildExperience.runtime` is a whole number of seconds. `timeString()` is defined outside the gallery and is a parameter of the gallery.
- The full-screen toggle animations, cell dequeuing and styling, the fixed row height, the share sheet, notification registration and removal, and `close`. These are presentation glue.
- `VideoGallery.StartClip`: the gallery reads whether the player has a queue afresh on each selection, but only `VideoPlayer.PrepareToPlay` creates one. When that happens relative to later selections, or whether it happens at all, is not modelled.
- `DataLoader.StripXml`: `replacingOccurrences(of:with:)` is matched here code point by code point. Foundation's default comparison works on composed character sequences, so a ".xml" followed by a combining mark is left alone there but removed here.
- `DataLoader.SearchTerm`: spaces are matched code point by code point. Foundation's default comparison works on composed character sequences, so a space followed by a combining mark is left alone there but replaced here.
- `DataLoader.PlaybackAssetFor`: the main-feature asset has no image URL, because the call leaves out `imageURL`. This relies on `NextGenExamplePlaybackAsset`'s initializer defaulting that argument to nil. That initializer is not part of this model.
- `DataLoader.Loader.constructor`: `init` also makes the loader the hook delegate (`NextGenHook.delegate = self`). That global registration, and the framework's calls back through it, are not part of this model. The hook callbacks are modelled as plain functions.
- `VideoGallery.Gallery.DidSelectRow`: requires at most `Int32.max` children, because `Int32(...)` traps beyond that. `SelectRowByTap` and `OnWillPlayNextItem` inherit the same bound.

## Findings

| source | as written | input that shows it | evidently intended | confidence | as-written member | corrected member |
|---|---|---|---|---|---|---|
| NextGen/Extras/ExtrasVideoGalleryViewController.swift:67 | the next-item observer checks only `index < childExperiences.count` before selecting the row and indexing `childExperiences[indexPath.row]` (line 130) | a notification whose "index" is -1 passes the guard, and line 130 then indexes the child list at -1, which traps | act only on `0 <= index < count`, so that every index that passes is a row | low: the player appears to post only non-negative queue indices; not executed | `VideoGallery.AsWrittenGuardAdmitsNegativeIndex` | `VideoGallery.Gallery.OnWillPlayNextItem` |
