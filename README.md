# Immich album viewer: a verified model of its windowing core

Immich Alt Viewer is a browser front end for one album of an Immich media server. A small
Python proxy sits in front of it. The React client fetches the album's asset list once
and keeps all of it in `allAssets`. It shows a contiguous window of that list
(`displayedAssets`), which grows by pages as the user scrolls and is recentred around a
date picked on the timeline. The client also groups the shown assets by day, offers a
fullscreen viewer with previous/next navigation and preloading, and builds a timeline of
the album's distinct dates. The proxy cleans the API key, forwards image requests to the
media server with caching headers, and lists an album's assets from the database.

This project models that core in Dafny and proves what the code promises about it.

- `Album` (album_viewer.dfy) is the album window manager, as a class `AlbumViewer` with
  the component's state hooks as fields:
  - `loadAlbum` is split into its validation and reset part, and its completion with
    the fetch outcome as an input;
  - `loadMore` is split into its guarded start and the deferred step that `setTimeout`
    runs;
  - `handleDateSelect`;
  - the scroll observer's guard;
  - the three fullscreen callbacks.

  One invariant holds across every transition: the displayed assets are a contiguous
  slice of the album. Every method states its whole new state as one equation over a
  `ViewerState` snapshot.
- `Fullscreen` (fullscreen_viewer.dfy) covers:
  - the viewer's local index and its moves;
  - the keyboard and backdrop rules;
  - the load-more trigger;
  - the preload loop.
- `Timeline` (date_slider.dfy) is the date slider's extraction loop. It builds one entry
  per distinct date, in first-appearance order, with each entry's count, timestamp and
  first index. It is proved against a declarative definition of "the timeline of a list".
- `Gallery` (image_gallery.dfy) is the day-grouping loop. It is proved against a
  declarative definition of "a cut into maximal single-date runs". A separate lemma
  proves that such a cut is unique.
- `Backend` (backend.dfy) covers the pure parts of back/main.py:
  - the API-key sanitiser;
  - the upstream request;
  - the response or error each proxy endpoint builds;
  - the album row projection.
- `Assets`, `Strings` and `Wrappers` hold what these share:
  - the asset record;
  - `findIndex`, `indexOf` and `slice` with JavaScript's semantics;
  - trimming for a given notion of whitespace (JavaScript's `trim` and Python's
    `strip` differ);
  - the decimal rendering of a status code;
  - `Option` and `Result`.

Every date comparison in the client goes through `toLocaleDateString('en-US', …)`. That
call depends on the browser's locale and time zone, so the model takes it as a function
parameter `dateKey: Asset -> string` and assumes nothing about it. `getTime()` is handled
the same way, as `timeOf: Asset -> int`.

`loadMore` computes the new end of the displayed window as `(page + 1) * 300 + 300`, and
`page` starts at 1. So the first call grows the window from 300 assets to 900, and each
later call adds one page of 300. `LoadMoreEnd` and `ScrollThroughAlbum` state this.

## Model

| member | source | states |
|---|---|---|
| Assets.FindFirst | front-react/src/components/AlbumViewer.jsx:125-134 | `findIndex`: -1 exactly when no element satisfies the test, otherwise the first position that does |
| Assets.FindDate | front-react/src/components/AlbumViewer.jsx:125-134 | the first asset whose date key is the target, or -1 exactly when no asset has that key |
| Assets.FindId | front-react/src/components/AlbumViewer.jsx:229 | the first displayed asset with the identifier, or -1 exactly when none has it |
| Assets.IndexOf | front-react/src/components/DateSlider.jsx:27 | `indexOf`: -1 exactly when the asset is absent, otherwise a position holding it with no earlier occurrence |
| Assets.JsSlice | front-react/src/components/AlbumViewer.jsx:68 | `slice` with clamped bounds is a contiguous piece of the list, exactly `s[start..end]` for in-range bounds, and a prefix when starting at 0 |
| Strings.Trim | front-react/src/components/AlbumViewer.jsx:43 | the result is the slice between the first and the last non-whitespace character: what is cut from either end is whitespace, and the result neither starts nor ends with whitespace |
| Strings.TrimEmptyIffAllSpace | front-react/src/components/AlbumViewer.jsx:43 | a string trims to nothing exactly when all its characters are whitespace |
| Strings.TrimKeeps | back/main.py:70 | every character of the trimmed string has any property that every character of the input has |
| Strings.TrimIdempotent | back/main.py:70 | trimming twice is trimming once |
| Strings.Decimal | front-react/src/components/AlbumViewer.jsx:63 | `${status}` is a non-empty digit string without a leading zero except for 0 itself |
| Strings.DecimalRoundTrip | front-react/src/components/AlbumViewer.jsx:63 | reading back the decimal rendering gives the number |
| Album.IsJsSpace | front-react/src/components/AlbumViewer.jsx:43-48 | the characters `String.prototype.trim` removes: ASCII tab to carriage return, space, no-break space, the Unicode space separators, line and paragraph separators and the byte-order mark |
| Album.IsBlank | front-react/src/components/AlbumViewer.jsx:43-48 | `!s.trim()`: the JavaScript-trimmed field is empty; `BlankIffAllSpace` characterises it |
| Album.BlankIffAllSpace | front-react/src/components/AlbumViewer.jsx:43-48 | `!s.trim()` holds exactly when the field is empty or white space only, for JavaScript's white space and line terminators |
| Album.ValidationError | front-react/src/components/AlbumViewer.jsx:42-51 | the album message exactly when the album field is blank (so it wins when both are), the key message exactly when only the key is blank, and no message exactly when neither is |
| Album.StoredOr | front-react/src/components/AlbumViewer.jsx:12-13 | a stored non-empty value is used, otherwise the fallback (`getItem(...) \|\| fallback`) |
| Album.AlbumPath | front-react/src/components/AlbumViewer.jsx:60 | the fetch path is `/albums/`, the album id, then `/assets` |
| Album.IsOk | front-react/src/components/AlbumViewer.jsx:62 | `response.ok`: the status lies in 200 to 299 |
| Album.FetchAssets | front-react/src/components/AlbumViewer.jsx:59-75 | success exactly for an OK status with an array body; the rejected fetch's message, the status error, or the parse error otherwise |
| Album.StatusErrorCarriesStatus | front-react/src/components/AlbumViewer.jsx:62-75 | the shown message for a failed status is `Error: Failed to fetch album: ` followed by digits that read back as that status |
| Album.StatusErrorsDiffer | front-react/src/components/AlbumViewer.jsx:62-75 | two different failed statuses never produce the same error message |
| Album.CeilDiv | front-react/src/components/AlbumViewer.jsx:145 | `Math.ceil(a / b)`: the least count of pages of size b that covers a |
| Album.DateWindow | front-react/src/components/AlbumViewer.jsx:140-141 | the jump window holds the target, lies in the list, spans at most 900 assets, and reaches a full page before and two pages after the target, clipped only where the list begins or ends |
| Album.LoadMoreEnd | front-react/src/components/AlbumViewer.jsx:88-90 | the next `loadMore` ends at `(page + 2) * 300` |
| Album.LoadMoreAfterJumpKeepsWindow | front-react/src/components/AlbumViewer.jsx:141-145 | after a date jump, the next `loadMore` still shows the whole jump window |
| Album.AlbumViewer.constructor | front-react/src/components/AlbumViewer.jsx:12-22 | the initial hook values, with the key and album taken from storage or their fallbacks |
| Album.AlbumViewer.SetApiKey | front-react/src/components/AlbumViewer.jsx:182 | typing in the key field changes the key only |
| Album.AlbumViewer.SetAlbumId | front-react/src/components/AlbumViewer.jsx:190 | typing in the album field changes the album id only |
| Album.AlbumViewer.BeginLoadAlbum | front-react/src/components/AlbumViewer.jsx:42-60 | a blank field sets its message and changes nothing else; otherwise the error clears, the album and window empty, the page resets to 1, loading starts and the fetch path is `AlbumPath` of the album id |
| Album.AlbumViewer.ResetForFetch | front-react/src/components/AlbumViewer.jsx:53-57 | the five resets before the fetch, and nothing else |
| Album.AlbumViewer.CompleteLoadAlbum | front-react/src/components/AlbumViewer.jsx:59-79 | on success the album is the data, the window its first page, more iff it exceeds a page, the empty-album message iff it is empty; on failure the `Error: ` message; `initialLoading` ends either way |
| Album.AlbumViewer.LoadAlbum | front-react/src/components/AlbumViewer.jsx:42-80 | a fetch of `AlbumPath` of the album id exactly when validation passes, and the three outcomes of `loadAlbum`: blocked by validation, loaded (page 1, first page shown), or failed (album and window empty, page 1, error shown, not loading) |
| Album.AlbumViewer.LoadMore | front-react/src/components/AlbumViewer.jsx:83-86 | nothing happens while a load is pending or when exhausted; otherwise only the pending flag is set |
| Album.AlbumViewer.LoadMoreTwice | front-react/src/components/AlbumViewer.jsx:84-86 | a second `loadMore` before completion never schedules and changes nothing |
| Album.AlbumViewer.CompleteLoadMore | front-react/src/components/AlbumViewer.jsx:87-97 | the window becomes the album's prefix up to `(p + 2) * 300`, the page is p + 1, more iff the album goes past that end, and not loading; from any state, date jumps included |
| Album.AlbumViewer.ObserverCallback | front-react/src/components/AlbumViewer.jsx:103-106 | more is requested exactly when the sentinel is visible, more exists and no load is pending |
| Album.AlbumViewer.HandleDateSelect | front-react/src/components/AlbumViewer.jsx:123-146 | no change when no asset has the date; otherwise the window is `DateWindow` around the first such asset, the page counts pages up to its end, and more iff the album goes past it |
| Album.AlbumViewer.JumpTo | front-react/src/components/AlbumViewer.jsx:136-146 | the recentring for a found index, and no change at -1 |
| Album.AlbumViewer.OpenFullscreen | front-react/src/components/AlbumViewer.jsx:228-232 | the viewer opens on the asset, at the displayed position of its identifier |
| Album.AlbumViewer.CloseFullscreen | front-react/src/components/AlbumViewer.jsx:258 | closing clears the fullscreen asset only |
| Album.AlbumViewer.NavigateFullscreen | front-react/src/components/AlbumViewer.jsx:259-262 | the index is the new one and the asset the displayed one there, or none outside the window |
| Album.AlbumViewer.FullscreenLoadMore | front-react/src/components/AlbumViewer.jsx:263-268 | the viewer's request loads more exactly when no load is pending and more exists |
| Album.ScrollThroughAlbum | front-react/src/components/AlbumViewer.jsx:83-98 | loading an album of more than 900 assets and scrolling twice shows 300, then 900, then min(N, 1200) assets |
| Fullscreen.ShouldLoadMore | front-react/src/components/FullscreenViewer.jsx:16-19 | the effect's condition: at most three images from the end and a handler is given; `LoadMoreIffPreloadRunsShort` relates it to the preload loop |
| Fullscreen.NextIndices | front-react/src/components/FullscreenViewer.jsx:29-31 | at most three consecutive indices after the current one, all in range, stopping early only at the end of the list |
| Fullscreen.PreloadIds | front-react/src/components/FullscreenViewer.jsx:25-36 | the loop preloads exactly the assets at `NextIndices`, in order |
| Fullscreen.LoadMoreIffPreloadRunsShort | front-react/src/components/FullscreenViewer.jsx:15-22 | load-more is requested exactly when fewer than three images are left after the current one |
| Fullscreen.BackdropClick | front-react/src/components/FullscreenViewer.jsx:82-86 | a click closes exactly when its target's class is `fullscreen-backdrop`; otherwise nothing happens |
| Fullscreen.FullscreenViewer.constructor | front-react/src/components/FullscreenViewer.jsx:7 | the local index starts at the prop |
| Fullscreen.FullscreenViewer.ReceiveProps | front-react/src/components/FullscreenViewer.jsx:10-12 | a changed `currentIndex` prop resets the local index; an unchanged one keeps it |
| Fullscreen.FullscreenViewer.HasPrevious | front-react/src/components/FullscreenViewer.jsx:91 | `hasPrevious`: the index is above 0; it gates `GoToPrevious` |
| Fullscreen.FullscreenViewer.HasNext | front-react/src/components/FullscreenViewer.jsx:92 | `hasNext`: the index is below the last position; it gates `GoToNext` |
| Fullscreen.FullscreenViewer.GoToPrevious | front-react/src/components/FullscreenViewer.jsx:66-72 | exactly when `hasPrevious`, the index drops by one and the parent is told; otherwise nothing; the index stays in range |
| Fullscreen.FullscreenViewer.GoToNext | front-react/src/components/FullscreenViewer.jsx:74-80 | exactly when `hasNext`, the index rises by one and the parent is told; otherwise nothing; the index stays in range |
| Fullscreen.FullscreenViewer.HandleKeyboard | front-react/src/components/FullscreenViewer.jsx:47-55 | Escape closes, ArrowLeft and ArrowRight act as the previous and next moves, every other key does nothing |
| Timeline.ExtractDates | front-react/src/components/DateSlider.jsx:8-36 | the loop yields the timeline of the list (one entry per distinct date, in first-appearance order, each with its first asset's index and timestamp and its exact count), and the counts sum to the list's length |
| Timeline.VisitAsset | front-react/src/components/DateSlider.jsx:13-33 | one asset's visit extends the timeline and the map of dates to entries from a prefix to the next longer one |
| Timeline.FirstOfItsDate | front-react/src/components/DateSlider.jsx:22-27 | an asset whose date is not yet in the map is the first of its date, so `indexOf` finds its own position |
| Timeline.EntriesDistinct | front-react/src/components/DateSlider.jsx:22-29 | no two entries share a date |
| Timeline.EntriesNonEmpty | front-react/src/components/DateSlider.jsx:26-31 | every entry counts at least one asset |
| Timeline.TimelineIsUnique | front-react/src/components/DateSlider.jsx:8-36 | a list of assets has only one timeline, so the entries `Refresh` stores are determined by the assets |
| Timeline.EmptyTimelineIffNoAssets | front-react/src/components/DateSlider.jsx:43 | there are no entries exactly when there are no assets, which is when nothing renders |
| Timeline.SelectFindsFirstAsset | front-react/src/components/DateSlider.jsx:38-41 | selecting an entry's date makes the album viewer's search find exactly that entry's first index, never -1 |
| Timeline.DateSlider.constructor | front-react/src/components/DateSlider.jsx:5-6 | both hooks start empty |
| Timeline.DateSlider.Refresh | front-react/src/components/DateSlider.jsx:8-43 | the effect stores the timeline of the new assets, which covers all of them, leaves the selection alone, and the slider renders exactly when there are assets |
| Timeline.DateSlider.HandleDateClick | front-react/src/components/DateSlider.jsx:38-41 | the clicked date is remembered and reported to the parent |
| Gallery.GroupByDay | front-react/src/components/ImageGallery.jsx:7-37 | the loop cuts the list into maximal single-date runs (non-empty groups whose concatenation is the list, neighbours with different dates) and makes one more group than there are date changes |
| Gallery.NewDateStep | front-react/src/components/ImageGallery.jsx:21-26 | a new date closes the open group and opens a new one, keeping the loop invariant |
| Gallery.SameDateStep | front-react/src/components/ImageGallery.jsx:27-29 | the same date extends the open group, keeping the loop invariant |
| Gallery.ScanDone | front-react/src/components/ImageGallery.jsx:32-34 | the final flush turns the scanned state into the grouping |
| Gallery.EmptyGivesNoGroups | front-react/src/components/ImageGallery.jsx:32 | an empty list has no groups |
| Gallery.LastGroupIsMaximalRun | front-react/src/components/ImageGallery.jsx:21-34 | the last group is the longest single-date run that the list ends with |
| Gallery.GroupingIsUnique | front-react/src/components/ImageGallery.jsx:7-37 | two groupings of the same list are equal, so the loop's result is determined by the dates alone |
| Gallery.OneDateOneGroup | front-react/src/components/ImageGallery.jsx:21-29 | assets that all share a date form one group holding all of them |
| Gallery.SplitDateSplitsGroups | front-react/src/components/ImageGallery.jsx:21-27 | dates A, B, A give three groups: equal dates that are not adjacent stay apart |
| Backend.IsPySpace | back/main.py:70 | the characters `str.strip()` removes from an ASCII string: tab to carriage return, the separators 0x1C-0x1F and space |
| Backend.AsciiOnly | back/main.py:70 | `encode('ascii', 'ignore').decode('ascii')` keeps only ASCII characters and never lengthens the key |
| Backend.AsciiOnlyEmbeds | back/main.py:70 | the kept characters are exactly the ASCII positions of the key, in order |
| Backend.SanitizedKeyIsAsciiAndStripped | back/main.py:70 | the cleaned key is all ASCII and has no Python whitespace at either end |
| Backend.SanitizedKeyIsSubsequence | back/main.py:70 | the cleaned key is a subsequence of the given key |
| Backend.SanitizedKeyEmptyIff | back/main.py:70 | the cleaned key is empty exactly when every ASCII character of the given key is Python white space |
| Backend.PyStrip | back/main.py:70 | `str.strip()` never lengthens, is empty exactly when the string is all Python white space, and otherwise neither starts nor ends with it |
| Backend.SanitizeApiKey | back/main.py:70 | the cleaned key is never longer than the given one and has no Python white space at either end |
| Backend.SanitizeIdempotent | back/main.py:70 | cleaning a cleaned key changes nothing |
| Backend.CleanKeyUnchanged | back/main.py:70 | an all-ASCII key without surrounding whitespace is forwarded unchanged |
| Backend.BuildRequest | back/main.py:70-127 | each endpoint forwards the cleaned key to `<IMMICH_URL>/api/assets/<id>` followed by `/original` for fullsize and `/thumbnail` otherwise, with size `thumbnail` or `preview`, and no size for fullsize |
| Backend.UpstreamPaths | back/main.py:127-128 | preview asks the thumbnail path with another size, while fullsize asks a different path |
| Backend.ETag | back/main.py:88 | the ETag is the asset id, a dash and the endpoint's suffix, between double quotes |
| Backend.ETagInjective | back/main.py:88 | different endpoint and asset pairs never share an ETag |
| Backend.MediaType | back/main.py:85 | the upstream content type, or `image/jpeg` when there is none |
| Backend.Respond | back/main.py:79-89 | an error carrying the upstream status and the endpoint's detail exactly when the status is not 200; otherwise the content with the one-day cache header, the ETag, and the upstream content type (JPEG when absent) as media type |
| Backend.AlbumAssets | back/main.py:63 | one record per row, in row order, with the row's id and time |
| Backend.AlbumAssetsNewestFirst | back/main.py:58-63 | the listing keeps the query's newest-first order |

The three proxy endpoints repeat one pattern, and `Endpoint` selects the variant. The
rows above cite the thumbnail instance; the other two are at these lines of back/main.py:

- key cleaning: 97 (preview) and 124 (fullsize);
- upstream request: 99-101 and 127-128;
- status check: 106-107 and 133-134;
- response: 110-116 and 137-143.

## Left out

- The localStorage reads and writes and the auto-load on mount are browser storage I/O.
  The stored values enter the constructor as parameters.
- The IntersectionObserver subscription and cleanup are left out. Only its callback's
  guard is modelled.
- `setTimeout` delays are left out: `loadMore` is a start step and a completion step.
  React's stale closures are not modelled either: the completion reads the current state.
- The DOM query and `scrollIntoView` after a date jump are presentation only.
- The `console.error` logging in `loadAlbum`'s catch block is left out: it is output only
  and changes no state.
- The network and database calls are left out: `fetch`, `response.json()`, `httpx`,
  `asyncpg`, CORS, static files and the startup/shutdown hooks. Fetch outcomes and
  upstream responses are inputs.
- `toLocaleDateString`, `toLocaleTimeString` and `new Date(...)` are locale- and
  time-zone-dependent library calls. They become the `dateKey` and `timeOf` parameters.
- `encodeURIComponent` and the image URLs built from it are library string routines.
  Image creation in the preload loop is represented by the preloaded asset identifiers.
- The preload effect's cleanup (clearing `img.src`) only releases browser resources.
- The JSX rendering, the CSS, ImageCard.jsx and App.jsx are presentation.
- A JSON body that parses but is not an array is not modelled. The body is either an
  asset array or a parse failure.
- Assets.IndexOf: compares assets by value, whereas JavaScript compares objects by
  identity. `Timeline.FirstOfItsDate` proves that at its only use the two agree.
- Fullscreen.PreloadIds: requires `index >= -1`. Below that, the source's first
  candidate is a negative position: `assets[nextIndex]` is `undefined`, and reading its
  `assetId` throws. The index comes from `findIndex`, so it is never below -1.
