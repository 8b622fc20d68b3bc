/**
 * The pure parts of the proxy server: cleaning the API key before it is forwarded, the
 * upstream request each proxy endpoint makes, the response it builds from the upstream
 * answer (caching headers, ETag, content type) or the error it raises, and the projection
 * of database rows to the album listing.
 */
module Backend {
  import opened Wrappers
  import Strings

  /** A character that survives `encode('ascii', 'ignore')`. */
  predicate IsAscii(c: char) { c as int < 128 }

  /**
   * Python's `str.isspace()` on an ASCII character: tab, line feed, vertical tab, form
   * feed, carriage return, the four separators 0x1C-0x1F, and space. `strip` is only ever
   * applied here to a string that is already ASCII, so no other character matters.
   */
  predicate IsPySpace(c: char) { 9 <= c as int <= 13 || 28 <= c as int <= 32 }

  /** `s.encode('ascii', 'ignore').decode('ascii')`: `s` with every non-ASCII character dropped. */
  function AsciiOnly(s: string): (r: string)
    ensures |r| <= |s|
    ensures forall i :: 0 <= i < |r| ==> IsAscii(r[i])
  {
    if s == [] then []
    else AsciiOnly(s[..|s| - 1]) + (if IsAscii(s[|s| - 1]) then [s[|s| - 1]] else [])
  }

  /** The positions of `s` that `AsciiOnly` keeps, in increasing order: all the ASCII ones. */
  function AsciiPositions(s: string): (r: seq<int>)
    ensures forall k :: 0 <= k < |r| ==> 0 <= r[k] < |s| && IsAscii(s[r[k]])
    ensures forall i :: 0 <= i < |s| && IsAscii(s[i]) ==> i in r
  {
    if s == [] then []
    else AsciiPositions(s[..|s| - 1]) + (if IsAscii(s[|s| - 1]) then [|s| - 1] else [])
  }

  /** `str.strip()`: empty exactly for an all-whitespace string, and no whitespace at either end. */
  function PyStrip(s: string): (r: string)
    ensures |r| <= |s|
    ensures r == [] <==> forall i :: 0 <= i < |s| ==> IsPySpace(s[i])
    ensures r != [] ==> !IsPySpace(r[0]) && !IsPySpace(r[|r| - 1])
  {
    Strings.TrimEmptyIffAllSpace(s, IsPySpace);
    Strings.Trim(s, IsPySpace)
  }

  /** The key the proxy forwards as `x-api-key` (`api_key_clean`). */
  function SanitizeApiKey(apiKey: string): (r: string)
    ensures |r| <= |apiKey|
    ensures r != [] ==> !IsPySpace(r[0]) && !IsPySpace(r[|r| - 1])
  {
    PyStrip(AsciiOnly(apiKey))
  }

  /** `idx` lists, in strictly increasing order, positions of `s` that spell out `t`. */
  ghost predicate Embeds(t: string, s: string, idx: seq<int>) {
    && |idx| == |t|
    && (forall k :: 0 <= k < |idx| ==> 0 <= idx[k] < |s| && s[idx[k]] == t[k])
    && (forall k :: 0 <= k < |idx| - 1 ==> idx[k] < idx[k + 1])
  }

  /** `t` is obtained from `s` by deleting characters. */
  ghost predicate IsSubsequence(t: string, s: string) {
    exists idx :: Embeds(t, s, idx)
  }

  /** `AsciiOnly` keeps exactly the characters at `AsciiPositions`, in order. */
  lemma {:induction false} AsciiOnlyEmbeds(s: string)
    ensures Embeds(AsciiOnly(s), s, AsciiPositions(s))
  {
    if s != [] {
      var p := s[..|s| - 1];
      AsciiOnlyEmbeds(p);
      var t, idx := AsciiOnly(p), AsciiPositions(p);
      assert forall k :: 0 <= k < |idx| ==> s[idx[k]] == p[idx[k]];
      if IsAscii(s[|s| - 1]) {
        assert AsciiOnly(s) == t + [s[|s| - 1]];
        assert AsciiPositions(s) == idx + [|s| - 1];
      } else {
        assert AsciiOnly(s) == t;
        assert AsciiPositions(s) == idx;
      }
    }
  }

  /** An all-ASCII string goes through the encode/decode round trip unchanged. */
  lemma {:induction false} AsciiOnlyKeepsAscii(s: string)
    requires forall i :: 0 <= i < |s| ==> IsAscii(s[i])
    ensures AsciiOnly(s) == s
  {
    if s != [] {
      AsciiOnlyKeepsAscii(s[..|s| - 1]);
      assert s == s[..|s| - 1] + [s[|s| - 1]];
    }
  }

  /** A slice of an embedded string is embedded by the matching slice of positions. */
  lemma EmbedsSlice(t: string, s: string, idx: seq<int>, lo: nat, hi: nat)
    requires Embeds(t, s, idx) && lo <= hi <= |t|
    ensures Embeds(t[lo..hi], s, idx[lo..hi])
  {
  }

  /** A slice of a string embedded in `s` is a subsequence of `s`. */
  lemma SliceIsSubsequence(t: string, s: string, idx: seq<int>, lo: nat, r: string)
    requires Embeds(t, s, idx) && lo + |r| <= |t| && r == t[lo..lo + |r|]
    ensures IsSubsequence(r, s)
  {
    EmbedsSlice(t, s, idx, lo, lo + |r|);
    assert Embeds(r, s, idx[lo..lo + |r|]);
  }

  /** The cleaned key holds only ASCII characters and has no Python whitespace at either end. */
  lemma SanitizedKeyIsAsciiAndStripped(apiKey: string)
    ensures var r := SanitizeApiKey(apiKey);
      && (forall i :: 0 <= i < |r| ==> IsAscii(r[i]))
      && (r != [] ==> !IsPySpace(r[0]) && !IsPySpace(r[|r| - 1]))
  {
    Strings.TrimKeeps(AsciiOnly(apiKey), IsPySpace, IsAscii);
  }

  /** Every character of the cleaned key comes from the given key, in order. */
  lemma SanitizedKeyIsSubsequence(apiKey: string)
    ensures IsSubsequence(SanitizeApiKey(apiKey), apiKey)
  {
    var t, idx := AsciiOnly(apiKey), AsciiPositions(apiKey);
    var r := Strings.Trim(t, IsPySpace);
    assert SanitizeApiKey(apiKey) == r;
    assert Embeds(t, apiKey, idx) by { AsciiOnlyEmbeds(apiKey); }
    var lo := Strings.TrimIsSlice(t, IsPySpace);
    SliceIsSubsequence(t, apiKey, idx, lo, r);
  }

  /**
   * The cleaned key is empty exactly when the given key has no ASCII character other
   * than whitespace.
   */
  lemma SanitizedKeyEmptyIff(apiKey: string)
    ensures SanitizeApiKey(apiKey) == [] <==>
      forall i :: 0 <= i < |apiKey| && IsAscii(apiKey[i]) ==> IsPySpace(apiKey[i])
  {
    var t, idx := AsciiOnly(apiKey), AsciiPositions(apiKey);
    AsciiOnlyEmbeds(apiKey);
    if SanitizeApiKey(apiKey) == [] {
      forall i | 0 <= i < |apiKey| && IsAscii(apiKey[i]) ensures IsPySpace(apiKey[i]) {
        var k :| 0 <= k < |idx| && idx[k] == i;
        assert t[k] == apiKey[i];
      }
    } else {
      var k :| 0 <= k < |t| && !IsPySpace(t[k]);
      assert apiKey[idx[k]] == t[k] && IsAscii(apiKey[idx[k]]);
    }
  }

  /** Sanitising an already sanitised key changes nothing. */
  lemma SanitizeIdempotent(apiKey: string)
    ensures SanitizeApiKey(SanitizeApiKey(apiKey)) == SanitizeApiKey(apiKey)
  {
    var r := SanitizeApiKey(apiKey);
    AsciiOnlyKeepsAscii(r);
    Strings.TrimIdempotent(AsciiOnly(apiKey), IsPySpace);
  }

  /** A key that is all ASCII with no surrounding whitespace is forwarded as it is. */
  lemma CleanKeyUnchanged(apiKey: string)
    requires forall i :: 0 <= i < |apiKey| ==> IsAscii(apiKey[i])
    requires apiKey != [] ==> !IsPySpace(apiKey[0]) && !IsPySpace(apiKey[|apiKey| - 1])
    ensures SanitizeApiKey(apiKey) == apiKey
  {
    AsciiOnlyKeepsAscii(apiKey);
    Strings.TrimFixed(apiKey, IsPySpace);
  }

  /** The three image proxy endpoints. */
  datatype Endpoint = Thumbnail | Preview | Fullsize

  /** What the proxy asks the media server for. */
  datatype UpstreamRequest = UpstreamRequest(url: string, apiKeyHeader: string, size: Option<string>)

  /** What the media server answered. */
  datatype UpstreamResponse = UpstreamResponse(status: int, contentType: Option<string>, content: seq<bv8>)

  /** The streamed answer of a proxy endpoint. */
  datatype ProxyResponse = ProxyResponse(content: seq<bv8>, mediaType: string, cacheControl: string, etag: string)

  /** `HTTPException(status_code, detail)`. */
  datatype HttpError = HttpError(statusCode: int, detail: string)

  const CacheControl: string := "public, max-age=86400"
  const DefaultMediaType: string := "image/jpeg"

  function Suffix(e: Endpoint): string {
    match e
    case Thumbnail => "-thumb"
    case Preview => "-preview"
    case Fullsize => "-fullsize"
  }

  function Detail(e: Endpoint): string {
    match e
    case Thumbnail => "Failed to fetch thumbnail"
    case Preview => "Failed to fetch preview"
    case Fullsize => "Failed to fetch fullsize image"
  }

  /** The `ETag` header: the asset id and the endpoint's suffix, in double quotes. */
  function ETag(e: Endpoint, assetId: string): (r: string)
    ensures |r| == |assetId| + |Suffix(e)| + 2
    ensures r[0] == '"' && r[|r| - 1] == '"' && r[1..|assetId| + 1] == assetId
    ensures r[|assetId| + 1..|r| - 1] == Suffix(e)
  {
    "\"" + assetId + Suffix(e) + "\""
  }

  /** Different (endpoint, asset) pairs never share an ETag. */
  lemma ETagInjective(e1: Endpoint, a1: string, e2: Endpoint, a2: string)
    requires ETag(e1, a1) == ETag(e2, a2)
    ensures e1 == e2 && a1 == a2
  {
    var t := ETag(e1, a1);
    // The character before the closing quote tells the endpoints apart: 'b', 'w' or 'e'.
    assert t[|t| - 2] == Suffix(e1)[|Suffix(e1)| - 1];
    assert t[|t| - 2] == Suffix(e2)[|Suffix(e2)| - 1];
    assert e1 == e2;
    assert a1 == t[1..|a1| + 1];
  }

  /** `response.headers.get("content-type", "image/jpeg")`. */
  function MediaType(contentType: Option<string>): (r: string)
    ensures contentType.None? ==> r == DefaultMediaType
    ensures contentType.Some? ==> r == contentType.value
  {
    match contentType
    case None => DefaultMediaType
    case Some(t) => t
  }

  /**
   * The upstream call a proxy endpoint makes: thumbnail and preview share the upstream
   * `/thumbnail` path and differ only in the `size` parameter; fullsize asks for
   * `/original` without one. The key header is always the sanitised key.
   */
  function BuildRequest(immichUrl: string, e: Endpoint, assetId: string, apiKey: string): (r: UpstreamRequest)
    ensures r.apiKeyHeader == SanitizeApiKey(apiKey)
    ensures |r.url| == |immichUrl| + 12 + |assetId| + (if e == Fullsize then 9 else 10)
    ensures r.url[..|immichUrl| + 12] == immichUrl + "/api/assets/"
    ensures r.url[|immichUrl| + 12..|immichUrl| + 12 + |assetId|] == assetId
    ensures e == Fullsize ==> r.url[|immichUrl| + 12 + |assetId|..] == "/original"
    ensures e != Fullsize ==> r.url[|immichUrl| + 12 + |assetId|..] == "/thumbnail"
    ensures e == Thumbnail ==> r.size == Some("thumbnail")
    ensures e == Preview ==> r.size == Some("preview")
    ensures e == Fullsize ==> r.size == None
  {
    var base := immichUrl + "/api/assets/" + assetId;
    match e
    case Thumbnail => UpstreamRequest(base + "/thumbnail", SanitizeApiKey(apiKey), Some("thumbnail"))
    case Preview => UpstreamRequest(base + "/thumbnail", SanitizeApiKey(apiKey), Some("preview"))
    case Fullsize => UpstreamRequest(base + "/original", SanitizeApiKey(apiKey), None)
  }

  /**
   * Preview asks the same upstream path as thumbnail (only the size differs), while
   * fullsize asks a different one.
   */
  lemma UpstreamPaths(immichUrl: string, assetId: string, apiKey: string)
    ensures var thumb := BuildRequest(immichUrl, Thumbnail, assetId, apiKey);
      && BuildRequest(immichUrl, Preview, assetId, apiKey).url == thumb.url
      && BuildRequest(immichUrl, Preview, assetId, apiKey).size != thumb.size
      && BuildRequest(immichUrl, Fullsize, assetId, apiKey).url != thumb.url
  {
    // "/original" is one character shorter than "/thumbnail".
  }

  /**
   * The answer of proxy endpoint `e`: an error carrying the upstream status unless it is
   * exactly 200; otherwise the upstream content with the day-long cache header, the ETag
   * of this asset and endpoint, and the upstream content type or `image/jpeg`.
   */
  function Respond(e: Endpoint, assetId: string, upstream: UpstreamResponse): (r: Result<ProxyResponse, HttpError>)
    ensures r.Failure? <==> upstream.status != 200
    ensures r.Failure? ==> r.error.statusCode == upstream.status && r.error.detail == Detail(e)
    ensures r.Success? ==> r.value.content == upstream.content
    ensures r.Success? ==> r.value.etag == ETag(e, assetId) && r.value.cacheControl == CacheControl
    ensures r.Success? ==> r.value.mediaType == MediaType(upstream.contentType)
    ensures r.Success? && upstream.contentType.None? ==> r.value.mediaType == DefaultMediaType
  {
    if upstream.status != 200 then Failure(HttpError(upstream.status, Detail(e)))
    else Success(ProxyResponse(upstream.content, MediaType(upstream.contentType), CacheControl, ETag(e, assetId)))
  }

  /** A row of the album query: `SELECT "assetId", "createdAt" ... ORDER BY "createdAt" DESC`. */
  datatype Row = Row(assetId: string, createdAt: int)

  /** One element of the album endpoint's JSON answer. */
  datatype AssetRecord = AssetRecord(assetId: string, createdAt: int)

  /** The album endpoint's list comprehension over the rows. */
  function AlbumAssets(rows: seq<Row>): (r: seq<AssetRecord>)
    ensures |r| == |rows|
    ensures forall i :: 0 <= i < |rows| ==> r[i].assetId == rows[i].assetId && r[i].createdAt == rows[i].createdAt
  {
    seq(|rows|, i requires 0 <= i < |rows| => AssetRecord(rows[i].assetId, rows[i].createdAt))
  }

  ghost predicate NewestFirst(rows: seq<Row>) {
    forall i, j :: 0 <= i < j < |rows| ==> rows[i].createdAt >= rows[j].createdAt
  }

  /** The listing keeps the query's order: newest first. */
  lemma AlbumAssetsNewestFirst(rows: seq<Row>)
    requires NewestFirst(rows)
    ensures var r := AlbumAssets(rows);
      forall i, j :: 0 <= i < j < |r| ==> r[i].createdAt >= r[j].createdAt
  {
  }
}
