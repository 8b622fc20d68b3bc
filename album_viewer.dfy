/**
 * The album window manager: the album viewer keeps every asset of the loaded album and
 * displays a contiguous window of them, grown page by page while scrolling and recentred
 * when a date is picked on the timeline.
 */
module Album {
  import opened Wrappers
  import opened Assets
  import Strings

  /** The size of one page of the displayed window. */
  const ItemsPerPage: nat := 300

  /** The album shown when none was stored. */
  const DefaultAlbumId: string := "790fa206-9f0f-4b96-b38f-adcb55f8f419"

  const MissingAlbumIdMessage: string := "Please enter an album ID"
  const MissingApiKeyMessage: string := "Please enter your Immich API key"
  const EmptyAlbumMessage: string := "No assets found in this album"
  const FetchFailedPrefix: string := "Failed to fetch album: "
  const ErrorPrefix: string := "Error: "

  /**
   * The characters JavaScript's `String.prototype.trim` removes: the white space
   * characters (tab, vertical tab, form feed, space, no-break space, the byte order mark
   * and the space separators of Unicode category Zs) and the line terminators (line feed,
   * carriage return, line and paragraph separators).
   */
  predicate IsJsSpace(c: char) {
    var n := c as int;
    9 <= n <= 13 || n == 0x20 || n == 0xA0 || n == 0x1680 || 0x2000 <= n <= 0x200A
    || n == 0x2028 || n == 0x2029 || n == 0x202F || n == 0x205F || n == 0x3000 || n == 0xFEFF
  }

  /** `!s.trim()`: the field is empty once trimmed. */
  predicate IsBlank(s: string) {
    Strings.Trim(s, IsJsSpace) == []
  }

  /** A field is blank exactly when it consists of white space only (or is empty). */
  lemma BlankIffAllSpace(s: string)
    ensures IsBlank(s) <==> forall i :: 0 <= i < |s| ==> IsJsSpace(s[i])
  {
    Strings.TrimEmptyIffAllSpace(s, IsJsSpace);
  }

  /**
   * The message `loadAlbum` stops with before fetching, if any: the album field is checked
   * first, so when both fields are blank it is the album's message.
   */
  function ValidationError(albumId: string, apiKey: string): (r: Option<string>)
    ensures r == Some(MissingAlbumIdMessage) <==> IsBlank(albumId)
    ensures r == Some(MissingApiKeyMessage) <==> !IsBlank(albumId) && IsBlank(apiKey)
    ensures r == None <==> !IsBlank(albumId) && !IsBlank(apiKey)
  {
    if IsBlank(albumId) then Some(MissingAlbumIdMessage)
    else if IsBlank(apiKey) then Some(MissingApiKeyMessage)
    else None
  }

  /** A field that starts with a visible character is not blank. */
  lemma VisibleNotBlank(s: string)
    requires s != [] && !IsJsSpace(s[0])
    ensures !IsBlank(s)
  {
    BlankIffAllSpace(s);
  }

  /** `localStorage.getItem(key) || fallback`: a missing or empty stored value gives the fallback. */
  function StoredOr(stored: Option<string>, fallback: string): (r: string)
    ensures stored.Some? && stored.value != [] ==> r == stored.value
    ensures stored.None? || stored.value == [] ==> r == fallback
  {
    if stored.Some? && stored.value != [] then stored.value else fallback
  }

  /** The path the album is fetched from (the API base URL is empty: same origin). */
  function AlbumPath(albumId: string): (r: string)
    ensures |r| == |albumId| + 15
    ensures r[..8] == "/albums/" && r[|r| - 7..] == "/assets" && r[8..|r| - 7] == albumId
  {
    "/albums/" + albumId + "/assets"
  }

  /** The body of the album response, as `response.json()` reads it. */
  datatype JsonBody = AssetArray(assets: seq<Asset>) | Unparsable(message: string)

  /** What the `fetch` of the album gives: a rejected promise, or a response. */
  datatype FetchOutcome = NetworkFailure(message: string) | HttpResponse(status: nat, body: JsonBody)

  /** `response.ok`: a status in the 200 range. */
  predicate IsOk(status: nat) {
    200 <= status <= 299
  }

  /**
   * The `try` block of `loadAlbum`: the assets, or the message of the error it throws or
   * meets: the rejected fetch, the thrown status error, or the failed JSON parse.
   */
  function FetchAssets(outcome: FetchOutcome): (r: Result<seq<Asset>, string>)
    ensures r.Success? <==> outcome.HttpResponse? && IsOk(outcome.status) && outcome.body.AssetArray?
    ensures r.Success? ==> r.value == outcome.body.assets
    ensures outcome.NetworkFailure? ==> r == Failure(outcome.message)
    ensures outcome.HttpResponse? && !IsOk(outcome.status) ==>
      r == Failure(FetchFailedPrefix + Strings.Decimal(outcome.status))
    ensures outcome.HttpResponse? && IsOk(outcome.status) && outcome.body.Unparsable? ==>
      r == Failure(outcome.body.message)
  {
    match outcome
    case NetworkFailure(message) => Failure(message)
    case HttpResponse(status, body) =>
      if !IsOk(status) then Failure(FetchFailedPrefix + Strings.Decimal(status))
      else match body
        case AssetArray(assets) => Success(assets)
        case Unparsable(message) => Failure(message)
  }

  /** The shown error of a failed status carries that status: it can be read back from the text. */
  lemma StatusErrorCarriesStatus(status: nat)
    requires !IsOk(status)
    ensures var shown := ErrorPrefix + FetchAssets(HttpResponse(status, Unparsable(""))).error;
      var p := |ErrorPrefix + FetchFailedPrefix|;
      p <= |shown| && shown[..p] == ErrorPrefix + FetchFailedPrefix
      && (forall i :: p <= i < |shown| ==> Strings.IsDigit(shown[i]))
      && Strings.DecimalValue(shown[p..]) == status
  {
    var shown := ErrorPrefix + FetchAssets(HttpResponse(status, Unparsable(""))).error;
    var p := |ErrorPrefix + FetchFailedPrefix|;
    assert shown == (ErrorPrefix + FetchFailedPrefix) + Strings.Decimal(status);
    assert shown[p..] == Strings.Decimal(status);
    Strings.DecimalRoundTrip(status);
  }

  /** Different failing statuses show different messages. */
  lemma StatusErrorsDiffer(s1: nat, s2: nat)
    requires !IsOk(s1) && !IsOk(s2) && s1 != s2
    ensures FetchAssets(HttpResponse(s1, Unparsable(""))) != FetchAssets(HttpResponse(s2, Unparsable("")))
  {
    if Strings.Decimal(s1) == Strings.Decimal(s2) {
      Strings.DecimalInjective(s1, s2);
    }
    var m1, m2 := FetchFailedPrefix + Strings.Decimal(s1), FetchFailedPrefix + Strings.Decimal(s2);
    assert m1[|FetchFailedPrefix|..] == Strings.Decimal(s1);
    assert m2[|FetchFailedPrefix|..] == Strings.Decimal(s2);
  }

  /** `Math.ceil(a / b)` for a non-negative `a`. */
  function CeilDiv(a: nat, b: nat): (r: nat)
    requires b > 0
    ensures a <= r * b
    ensures r > 0 ==> (r - 1) * b < a
  {
    (a + b - 1) / b
  }

  /**
   * The window `handleDateSelect` shows around position `i` of `n` assets: a page before
   * and two pages after, clipped to the list. It holds position `i` and at most three pages,
   * and it is clipped only where the list ends.
   */
  function DateWindow(i: nat, n: nat): (w: (nat, nat))
    requires i < n
    ensures w.0 <= i < w.1 <= n
    ensures w.1 - w.0 <= 3 * ItemsPerPage
    ensures w.0 == 0 || i - w.0 == ItemsPerPage
    ensures w.1 == n || w.1 - i == 2 * ItemsPerPage
    ensures i >= ItemsPerPage ==> i - w.0 == ItemsPerPage
    ensures i + 2 * ItemsPerPage <= n ==> w.1 - i == 2 * ItemsPerPage
  {
    (Max(0, i - ItemsPerPage), Min(n, i + 2 * ItemsPerPage))
  }

  /**
   * Where the next `loadMore` ends when the page is `page`: the next page is `page + 1`,
   * and the window runs to the end of the page after it.
   */
  function LoadMoreEnd(page: nat): (e: nat)
    ensures e == (page + 2) * ItemsPerPage
  {
    var nextPage := page + 1;
    var startIndex := nextPage * ItemsPerPage;
    startIndex + ItemsPerPage
  }

  /**
   * After a date jump, the next `loadMore` shows a prefix of the list that still holds
   * the whole jump window, so the selected asset stays on screen.
   */
  lemma LoadMoreAfterJumpKeepsWindow(i: nat, n: nat)
    requires i < n
    ensures DateWindow(i, n).1 <= LoadMoreEnd(CeilDiv(DateWindow(i, n).1, ItemsPerPage))
  {
  }

  /** Every piece of component state, as one value. */
  datatype ViewerState = ViewerState(
    apiKey: string,
    albumId: string,
    allAssets: seq<Asset>,
    displayedAssets: seq<Asset>,
    page: nat,
    loading: bool,
    initialLoading: bool,
    error: string,
    hasMore: bool,
    fullscreenAsset: Option<Asset>,
    fullscreenIndex: int)

  /** The album viewer component and its state hooks. */
  class AlbumViewer {
    var apiKey: string
    var albumId: string
    var allAssets: seq<Asset>
    var displayedAssets: seq<Asset>
    var page: nat
    var loading: bool
    var initialLoading: bool
    var error: string
    var hasMore: bool
    var fullscreenAsset: Option<Asset>
    var fullscreenIndex: int

    /** Where the displayed window starts within the whole album. */
    ghost var windowStart: nat

    /** The displayed assets are a contiguous slice of the album, starting at `windowStart`. */
    ghost predicate Valid()
      reads this
    {
      windowStart + |displayedAssets| <= |allAssets|
      && displayedAssets == allAssets[windowStart..windowStart + |displayedAssets|]
    }

    function State(): ViewerState
      reads this
    {
      ViewerState(apiKey, albumId, allAssets, displayedAssets, page, loading, initialLoading, error,
            hasMore, fullscreenAsset, fullscreenIndex)
    }

    /** The initial state; the key and album come from storage, the album falls back to the default. */
    constructor (storedApiKey: Option<string>, storedAlbumId: Option<string>)
      ensures Valid()
      ensures State() == ViewerState(StoredOr(storedApiKey, ""), StoredOr(storedAlbumId, DefaultAlbumId),
                               [], [], 1, false, false, "", true, None, 0)
    {
      apiKey := StoredOr(storedApiKey, "");
      albumId := StoredOr(storedAlbumId, DefaultAlbumId);
      allAssets := [];
      displayedAssets := [];
      page := 1;
      loading := false;
      initialLoading := false;
      error := "";
      hasMore := true;
      fullscreenAsset := None;
      fullscreenIndex := 0;
      windowStart := 0;
    }

    /** Typing in the API key field. */
    method SetApiKey(value: string)
      requires Valid()
      modifies this
      ensures Valid() && State() == old(State()).(apiKey := value)
    {
      apiKey := value;
    }

    /** Typing in the album field. */
    method SetAlbumId(value: string)
      requires Valid()
      modifies this
      ensures Valid() && State() == old(State()).(albumId := value)
    {
      albumId := value;
    }

    /**
     * The synchronous part of `loadAlbum`: the album field is checked first, then the key;
     * a blank one sets its message and changes nothing else. Otherwise the error is cleared,
     * the album emptied, the page reset and the fetch of `path` begins (`started`).
     */
    method BeginLoadAlbum() returns (started: bool, path: string)
      requires Valid()
      modifies this
      ensures Valid()
      ensures var v := ValidationError(old(albumId), old(apiKey));
        v.Some? ==> !started && State() == old(State()).(error := v.value)
      ensures var v := ValidationError(old(albumId), old(apiKey));
        v.None? ==> started && State() == old(State()).(error := "", initialLoading := true,
                                                        allAssets := [], displayedAssets := [], page := 1)
      ensures started ==> path == AlbumPath(old(albumId))
    {
      var invalid := ValidationError(albumId, apiKey);
      if invalid.Some? {
        error := invalid.value;
        return false, "";
      }
      path := AlbumPath(albumId);
      ResetForFetch();
      started := true;
    }

    /** What `loadAlbum` does just before fetching: clear the error, empty the album, reset the page. */
    method ResetForFetch()
      requires Valid()
      modifies this
      ensures Valid()
      ensures State() == old(State()).(error := "", initialLoading := true,
                                       allAssets := [], displayedAssets := [], page := 1)
    {
      error := "";
      initialLoading := true;
      allAssets := [];
      displayedAssets := [];
      windowStart := 0;
      page := 1;
    }

    /**
     * The part of `loadAlbum` after the fetch settles. On success the album is the data,
     * the first page is displayed, more is available iff the data exceeds a page, and an
     * empty album sets its message; on failure the error is the thrown message after
     * "Error: ". Either way `initialLoading` ends.
     */
    method CompleteLoadAlbum(outcome: FetchOutcome)
      requires Valid()
      modifies this
      ensures Valid()
      ensures var r := FetchAssets(outcome);
        r.Success? ==> State() == old(State()).(
          allAssets := r.value,
          displayedAssets := r.value[..Min(|r.value|, ItemsPerPage)],
          hasMore := |r.value| > ItemsPerPage,
          error := if r.value == [] then EmptyAlbumMessage else old(error),
          initialLoading := false)
      ensures var r := FetchAssets(outcome);
        r.Failure? ==> State() == old(State()).(error := ErrorPrefix + r.error, initialLoading := false)
    {
      var r := FetchAssets(outcome);
      if r.Success? {
        var data := r.value;
        allAssets := data;
        displayedAssets := JsSlice(data, 0, ItemsPerPage);
        windowStart := 0;
        hasMore := |data| > ItemsPerPage;
        if |data| == 0 {
          error := EmptyAlbumMessage;
        }
      } else {
        error := ErrorPrefix + r.error;
      }
      initialLoading := false;
    }

    /**
     * `loadAlbum` from start to finish, with the fetch's outcome as input; `fetched` is
     * the path it requests, if it gets that far.
     */
    method LoadAlbum(outcome: FetchOutcome) returns (fetched: Option<string>)
      requires Valid()
      modifies this
      ensures Valid()
      ensures fetched.None? <==> ValidationError(old(albumId), old(apiKey)).Some?
      ensures fetched.Some? ==> fetched.value == AlbumPath(old(albumId))
      ensures var v := ValidationError(old(albumId), old(apiKey));
        v.Some? ==> State() == old(State()).(error := v.value)
      ensures var r := FetchAssets(outcome);
        ValidationError(old(albumId), old(apiKey)).None? && r.Success? ==>
          State() == old(State()).(
            allAssets := r.value,
            displayedAssets := r.value[..Min(|r.value|, ItemsPerPage)],
            page := 1,
            hasMore := |r.value| > ItemsPerPage,
            error := if r.value == [] then EmptyAlbumMessage else "",
            initialLoading := false)
      ensures var r := FetchAssets(outcome);
        ValidationError(old(albumId), old(apiKey)).None? && r.Failure? ==>
          State() == old(State()).(allAssets := [], displayedAssets := [], page := 1,
                                   error := ErrorPrefix + r.error, initialLoading := false)
    {
      var started, path := BeginLoadAlbum();
      fetched := None;
      if started {
        fetched := Some(path);
        CompleteLoadAlbum(outcome);
      }
    }

    /**
     * `loadMore`: nothing while a load is pending or when the album is exhausted;
     * otherwise it marks a load as pending and schedules `CompleteLoadMore`.
     */
    method LoadMore() returns (scheduled: bool)
      requires Valid()
      modifies this
      ensures Valid()
      ensures scheduled <==> !old(loading) && old(hasMore)
      ensures !scheduled ==> State() == old(State())
      ensures scheduled ==> State() == old(State()).(loading := true)
    {
      if loading || !hasMore {
        return false;
      }
      loading := true;
      scheduled := true;
    }

    /**
     * Two `loadMore` calls before the deferred step runs: the second one finds the first
     * one's pending flag, or the same exhausted album, and changes nothing.
     */
    method LoadMoreTwice() returns (first: bool, second: bool)
      requires Valid()
      modifies this
      ensures Valid()
      ensures !second
      ensures first <==> !old(loading) && old(hasMore)
      ensures State() == if first then old(State()).(loading := true) else old(State())
    {
      first := LoadMore();
      second := LoadMore();
    }

    /**
     * The deferred step of `loadMore`: the window becomes the prefix of the album up to
     * the end of the page after next, the page advances by one, more is available iff the
     * album extends past that end, and the pending flag clears.
     */
    method CompleteLoadMore()
      requires Valid()
      modifies this
      ensures Valid()
      ensures State() == old(State()).(
        displayedAssets := allAssets[..Min(|allAssets|, LoadMoreEnd(old(page)))],
        page := old(page) + 1,
        hasMore := LoadMoreEnd(old(page)) < |allAssets|,
        loading := false)
    {
      var nextPage := page + 1;
      var endIndex := LoadMoreEnd(page);
      displayedAssets := JsSlice(allAssets, 0, endIndex);
      windowStart := 0;
      page := nextPage;
      hasMore := endIndex < |allAssets|;
      loading := false;
    }

    /** The intersection observer's callback: load more when the sentinel is visible and a load may start. */
    method ObserverCallback(isIntersecting: bool) returns (scheduled: bool)
      requires Valid()
      modifies this
      ensures Valid()
      ensures scheduled <==> isIntersecting && old(hasMore) && !old(loading)
      ensures !scheduled ==> State() == old(State())
      ensures scheduled ==> State() == old(State()).(loading := true)
    {
      scheduled := false;
      if isIntersecting && hasMore && !loading {
        scheduled := LoadMore();
      }
    }

    /**
     * `handleDateSelect`: find the first asset of the date; if there is none nothing
     * changes, otherwise the window becomes `DateWindow` around it, the page is the number
     * of pages up to the window's end, and more is available iff the album goes past it.
     */
    method HandleDateSelect(dateKey: DateKey, dateString: string)
      requires Valid()
      modifies this
      ensures Valid()
      ensures FindDate(old(allAssets), dateKey, dateString) == -1 ==> State() == old(State())
      ensures var i := FindDate(old(allAssets), dateKey, dateString);
        i >= 0 ==>
          var w := DateWindow(i, |old(allAssets)|);
          State() == old(State()).(
            displayedAssets := old(allAssets)[w.0..w.1],
            page := CeilDiv(w.1, ItemsPerPage),
            hasMore := w.1 < |old(allAssets)|)
    {
      var targetAssetIndex := FindDate(allAssets, dateKey, dateString);
      JumpTo(targetAssetIndex);
    }

    /** The rest of `handleDateSelect`, once the first asset of the date is found (or not, at -1). */
    method JumpTo(targetAssetIndex: int)
      requires Valid()
      requires -1 <= targetAssetIndex < |allAssets|
      modifies this
      ensures Valid()
      ensures targetAssetIndex == -1 ==> State() == old(State())
      ensures targetAssetIndex >= 0 ==>
          var w := DateWindow(targetAssetIndex, |old(allAssets)|);
          State() == old(State()).(
            displayedAssets := old(allAssets)[w.0..w.1],
            page := CeilDiv(w.1, ItemsPerPage),
            hasMore := w.1 < |old(allAssets)|)
    {
      if targetAssetIndex == -1 {
        return;
      }
      var startIndex := Max(0, targetAssetIndex - ItemsPerPage);
      var endIndex := Min(|allAssets|, targetAssetIndex + ItemsPerPage * 2);
      assert (startIndex, endIndex) == DateWindow(targetAssetIndex, |allAssets|);
      var newAssets := JsSlice(allAssets, startIndex, endIndex);
      assert newAssets == allAssets[startIndex..endIndex] && |newAssets| == endIndex - startIndex;
      displayedAssets := newAssets;
      windowStart := startIndex;
      page := CeilDiv(endIndex, ItemsPerPage);
      hasMore := endIndex < |allAssets|;
    }

    /** The gallery's `onFullscreen`: open the viewer on the displayed position of the asset's identifier. */
    method OpenFullscreen(asset: Asset)
      requires Valid()
      modifies this
      ensures Valid()
      ensures State() == old(State()).(
        fullscreenIndex := FindId(displayedAssets, asset.assetId),
        fullscreenAsset := Some(asset))
    {
      var index := FindId(displayedAssets, asset.assetId);
      fullscreenIndex := index;
      fullscreenAsset := Some(asset);
    }

    /** The viewer's `onClose`. */
    method CloseFullscreen()
      requires Valid()
      modifies this
      ensures Valid() && State() == old(State()).(fullscreenAsset := None)
    {
      fullscreenAsset := None;
    }

    /**
     * The viewer's `onNavigate`: the shown asset becomes the displayed one at `newIndex`.
     * Outside the window `displayedAssets[newIndex]` is `undefined`, which closes the viewer.
     */
    method NavigateFullscreen(newIndex: int)
      requires Valid()
      modifies this
      ensures Valid()
      ensures State() == old(State()).(
        fullscreenIndex := newIndex,
        fullscreenAsset := if 0 <= newIndex < |displayedAssets| then Some(displayedAssets[newIndex]) else None)
    {
      fullscreenIndex := newIndex;
      if 0 <= newIndex < |displayedAssets| {
        fullscreenAsset := Some(displayedAssets[newIndex]);
      } else {
        fullscreenAsset := None;
      }
    }

    /** The viewer's `onLoadMore`: load more only when no load is pending and more is available. */
    method FullscreenLoadMore() returns (scheduled: bool)
      requires Valid()
      modifies this
      ensures Valid()
      ensures scheduled <==> !old(loading) && old(hasMore)
      ensures !scheduled ==> State() == old(State())
      ensures scheduled ==> State() == old(State()).(loading := true)
    {
      scheduled := false;
      if !loading && hasMore {
        scheduled := LoadMore();
      }
    }
  }

  /**
   * An album of more than three pages, loaded and then scrolled to the end twice: the
   * window shows one page, then three (the first scroll adds two pages, because the page
   * counter starts at 1), then four, with more to come after the second scroll iff the
   * album is longer than four pages.
   */
  method ScrollThroughAlbum(assets: seq<Asset>) returns (shown: seq<nat>, more: seq<bool>)
    requires |assets| > 3 * ItemsPerPage
    ensures shown == [ItemsPerPage, 3 * ItemsPerPage, Min(|assets|, 4 * ItemsPerPage)]
    ensures more == [true, true, |assets| > 4 * ItemsPerPage]
  {
    var viewer := new AlbumViewer(Some("key"), None);
    VisibleNotBlank(viewer.albumId);
    VisibleNotBlank(viewer.apiKey);
    var fetched := viewer.LoadAlbum(HttpResponse(200, AssetArray(assets)));
    assert viewer.page == 1 && !viewer.loading && |viewer.displayedAssets| == ItemsPerPage;
    var first: nat, firstMore := |viewer.displayedAssets|, viewer.hasMore;
    var scheduled := viewer.ObserverCallback(true);
    viewer.CompleteLoadMore();
    assert viewer.page == 2 && !viewer.loading && |viewer.displayedAssets| == 3 * ItemsPerPage;
    var second: nat, secondMore := |viewer.displayedAssets|, viewer.hasMore;
    scheduled := viewer.ObserverCallback(true);
    viewer.CompleteLoadMore();
    var third: nat := |viewer.displayedAssets|;
    shown := [first, second, third];
    more := [firstMore, secondMore, viewer.hasMore];
  }
}
