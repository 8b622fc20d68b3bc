/**
 * The media asset as the client sees it, and the list primitives the client code uses
 * on asset lists: `Array.prototype.findIndex`, `Array.prototype.indexOf` and
 * `Array.prototype.slice`.
 */
module Assets {

  /** One photo or video of an album, as the album endpoint returns it. */
  datatype Asset = Asset(assetId: string, createdAt: string)

  /**
   * The formatted calendar date of an asset: `new Date(asset.createdAt)
   * .toLocaleDateString('en-US', { weekday: 'long', year: 'numeric', month: 'long',
   * day: 'numeric' })`. It depends on the locale and time zone of the browser, so the
   * model takes it as a parameter and assumes nothing about it.
   */
  type DateKey = Asset -> string

  function Min(a: int, b: int): int { if a <= b then a else b }

  function Max(a: int, b: int): int { if a <= b then b else a }

  /** `s.findIndex(p)`: the first position whose element satisfies `p`, or -1. */
  function FindFirst<T>(s: seq<T>, p: T -> bool): (r: int)
    ensures -1 <= r < |s|
    ensures r == -1 <==> forall i :: 0 <= i < |s| ==> !p(s[i])
    ensures 0 <= r ==> p(s[r]) && forall i :: 0 <= i < r ==> !p(s[i])
  {
    if s == [] then -1
    else if p(s[0]) then 0
    else
      var r := FindFirst(s[1..], p);
      assert forall i :: 1 <= i < |s| ==> s[i] == s[1..][i - 1];
      if r == -1 then -1 else r + 1
  }

  /**
   * The first asset whose date key is `dateString`, or -1: the search in
   * `handleDateSelect`.
   */
  function FindDate(assets: seq<Asset>, dateKey: DateKey, dateString: string): (r: int)
    ensures -1 <= r < |assets|
    ensures r == -1 <==> forall i :: 0 <= i < |assets| ==> dateKey(assets[i]) != dateString
    ensures 0 <= r ==> dateKey(assets[r]) == dateString
    ensures 0 <= r ==> forall i :: 0 <= i < r ==> dateKey(assets[i]) != dateString
  {
    FindFirst(assets, a => dateKey(a) == dateString)
  }

  /** The first asset with identifier `id`, or -1: the lookup in the gallery's `onFullscreen`. */
  function FindId(assets: seq<Asset>, id: string): (r: int)
    ensures -1 <= r < |assets|
    ensures r == -1 <==> forall i :: 0 <= i < |assets| ==> assets[i].assetId != id
    ensures 0 <= r ==> assets[r].assetId == id
    ensures 0 <= r ==> forall i :: 0 <= i < r ==> assets[i].assetId != id
  {
    FindFirst(assets, (a: Asset) => a.assetId == id)
  }

  /**
   * `assets.indexOf(asset)`. JavaScript compares objects by identity; here assets are
   * values, so this finds the first EQUAL asset. Where the model uses it, the two agree
   * (Timeline proves it finds the current position).
   */
  function IndexOf(assets: seq<Asset>, asset: Asset): (r: int)
    ensures -1 <= r < |assets|
    ensures r == -1 <==> asset !in assets
    ensures 0 <= r ==> assets[r] == asset && asset !in assets[..r]
  {
    FindFirst(assets, a => a == asset)
  }

  /** How `slice` turns a relative position into an index: negative counts from the end. */
  function SliceIndex(rel: int, len: nat): (r: nat)
    ensures r <= len
    ensures 0 <= rel ==> r == Min(rel, len)
  {
    if rel < 0 then Max(len + rel, 0) else Min(rel, len)
  }

  /** `s.slice(start, end)`, with JavaScript's clamping of both bounds. */
  function JsSlice<T>(s: seq<T>, start: int, end: int): (r: seq<T>)
    ensures |r| <= |s|
    ensures var lo := SliceIndex(start, |s|); lo + |r| <= |s| && r == s[lo..lo + |r|]
    ensures 0 <= start <= end <= |s| ==> r == s[start..end]
    ensures start == 0 && 0 <= end ==> r == s[..Min(end, |s|)]
  {
    var lo := SliceIndex(start, |s|);
    var hi := SliceIndex(end, |s|);
    if lo <= hi then s[lo..hi] else []
  }
}
