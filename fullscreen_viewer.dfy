/**
 * The fullscreen viewer: one asset of the displayed list at a time, with previous/next
 * moves, the keyboard and backdrop handlers, the "near the end" load-more trigger and the
 * preloading of the next few images.
 */
module Fullscreen {
  import opened Assets

  /** What a handler asks of the parent: nothing, `onNavigate(newIndex)`, or `onClose()`. */
  datatype Effect = Stay | Navigate(newIndex: int) | Close

  /** How many images the viewer preloads ahead, and how close to the end it asks for more. */
  const Lookahead: nat := 3

  /** The class name of the backdrop element; a click closes only on the backdrop itself. */
  const BackdropClass: string := "fullscreen-backdrop"

  /**
   * The load-more trigger: within `Lookahead` images of the end, and only if the parent
   * passed an `onLoadMore` handler.
   */
  predicate ShouldLoadMore(len: nat, index: int, hasHandler: bool) {
    len - index <= Lookahead && hasHandler
  }

  /**
   * The indices the preload loop visits: `index + i` for `i` from 1 to 3, keeping those
   * below `len`. They are consecutive and in range, and the list stops early only where
   * the next candidate is past the end.
   */
  function NextIndices(index: int, len: nat): (r: seq<int>)
    ensures |r| <= Lookahead
    ensures forall k :: 0 <= k < |r| ==> r[k] == index + 1 + k && r[k] < len
    ensures |r| == Lookahead || index + 1 + |r| >= len
  {
    var n := Max(0, Min(Lookahead, len - index - 1));
    seq(n, k requires 0 <= k < n => index + 1 + k)
  }

  /**
   * The preload effect: for `i` from 1 to 3, if `index + i` is a position of the list,
   * an image is created for that asset's full-size URL. The result is the list of asset
   * identifiers preloaded, in order.
   */
  method PreloadIds(index: int, assets: seq<Asset>) returns (ids: seq<string>)
    requires -1 <= index
    ensures var next := NextIndices(index, |assets|);
      |ids| == |next| && forall k :: 0 <= k < |ids| ==> 0 <= next[k] && ids[k] == assets[next[k]].assetId
  {
    ids := [];
    ghost var next := NextIndices(index, |assets|);
    for i := 1 to Lookahead + 1
      invariant |ids| == Max(0, Min(i - 1, |assets| - index - 1)) <= |next|
      invariant forall k :: 0 <= k < |ids| ==> ids[k] == assets[next[k]].assetId
    {
      var nextIndex := index + i;
      if nextIndex < |assets| {
        ids := ids + [assets[nextIndex].assetId];
      }
    }
  }

  /**
   * The load request and the preload loop look at the same distance to the end: the
   * viewer asks for more exactly when fewer than three images are left to preload.
   */
  lemma LoadMoreIffPreloadRunsShort(len: nat, index: int)
    requires 0 <= index < len
    ensures ShouldLoadMore(len, index, true) <==> |NextIndices(index, len)| < Lookahead
  {
    assert |NextIndices(index, len)| == Min(Lookahead, len - index - 1);
  }

  /** `handleBackdropClick`: close only when the click landed on the backdrop itself. */
  function BackdropClick(targetClass: string): (e: Effect)
    ensures e == Close <==> targetClass == BackdropClass
    ensures e != Close ==> e == Stay
  {
    if targetClass == BackdropClass then Close else Stay
  }

  /** The viewer component: its props (`assets`, `currentIndex`) and its local `index`. */
  class FullscreenViewer {
    var assets: seq<Asset>
    var currentIndex: int
    var index: int

    /** `useState(currentIndex)`. */
    constructor (assets: seq<Asset>, currentIndex: int)
      ensures this.assets == assets && this.currentIndex == currentIndex && index == currentIndex
    {
      this.assets := assets;
      this.currentIndex := currentIndex;
      index := currentIndex;
    }

    /** The shown position is a position of the list. */
    predicate InRange()
      reads this
    {
      0 <= index < |assets|
    }

    /** `hasPrevious`: the left button is shown. */
    predicate HasPrevious()
      reads this
    {
      index > 0
    }

    /** `hasNext`: the right button is shown. */
    predicate HasNext()
      reads this
    {
      index < |assets| - 1
    }

    /**
     * New props from the parent. The effect on `[currentIndex]` copies the prop into the
     * local index only when the prop changed.
     */
    method ReceiveProps(newAssets: seq<Asset>, newCurrentIndex: int)
      modifies this
      ensures assets == newAssets && currentIndex == newCurrentIndex
      ensures index == if newCurrentIndex != old(currentIndex) then newCurrentIndex else old(index)
    {
      if newCurrentIndex != currentIndex {
        index := newCurrentIndex;
      }
      assets := newAssets;
      currentIndex := newCurrentIndex;
    }

    /** `goToPrevious`: one step back and `onNavigate`, exactly when there is a previous image. */
    method GoToPrevious() returns (effect: Effect)
      modifies this
      ensures old(HasPrevious()) ==> index == old(index) - 1 && effect == Navigate(index)
      ensures !old(HasPrevious()) ==> index == old(index) && effect == Stay
      ensures old(InRange()) ==> InRange()
      ensures assets == old(assets) && currentIndex == old(currentIndex)
    {
      if index > 0 {
        index := index - 1;
        effect := Navigate(index);
      } else {
        effect := Stay;
      }
    }

    /** `goToNext`: one step forward and `onNavigate`, exactly when there is a next image. */
    method GoToNext() returns (effect: Effect)
      modifies this
      ensures old(HasNext()) ==> index == old(index) + 1 && effect == Navigate(index)
      ensures !old(HasNext()) ==> index == old(index) && effect == Stay
      ensures old(InRange()) ==> InRange()
      ensures assets == old(assets) && currentIndex == old(currentIndex)
    {
      if index < |assets| - 1 {
        index := index + 1;
        effect := Navigate(index);
      } else {
        effect := Stay;
      }
    }

    /** `handleKeyboard`: Escape closes, the arrow keys move, every other key is ignored. */
    method HandleKeyboard(key: string) returns (effect: Effect)
      modifies this
      ensures key == "Escape" ==> effect == Close && index == old(index)
      ensures key == "ArrowLeft" ==>
        if old(HasPrevious()) then index == old(index) - 1 && effect == Navigate(index)
        else index == old(index) && effect == Stay
      ensures key == "ArrowRight" ==>
        if old(HasNext()) then index == old(index) + 1 && effect == Navigate(index)
        else index == old(index) && effect == Stay
      ensures key !in {"Escape", "ArrowLeft", "ArrowRight"} ==> effect == Stay && index == old(index)
      ensures old(InRange()) ==> InRange()
      ensures assets == old(assets) && currentIndex == old(currentIndex)
    {
      if key == "Escape" {
        effect := Close;
      } else if key == "ArrowLeft" {
        effect := GoToPrevious();
      } else if key == "ArrowRight" {
        effect := GoToNext();
      } else {
        effect := Stay;
      }
    }
  }
}
