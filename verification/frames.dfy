/** The frame store: the preloaded images, their load counter, and the
    guard that makes painting a slot that holds no image do nothing. */
module Frames {

  /** One image of the sequence: the URL it is loaded from and its index. */
  datatype Frame = Frame(url: string, index: nat)

  /** The frames `init` creates from the configured URLs, one per URL, in order. */
  function FramesOf(urls: seq<string>): (frames: seq<Frame>)
    ensures |frames| == |urls|
    ensures forall i :: 0 <= i < |urls| ==> frames[i].url == urls[i] && frames[i].index == i
  {
    seq(|urls|, i requires 0 <= i < |urls| => Frame(urls[i], i))
  }

  /** How many frames have loaded, given which have. */
  function CountLoaded(loaded: seq<bool>): (n: nat)
    ensures n <= |loaded|
  {
    if loaded == [] then 0
    else CountLoaded(loaded[..|loaded| - 1]) + (if loaded[|loaded| - 1] then 1 else 0)
  }

  /** No frame has loaded yet: the count is zero. */
  lemma {:induction false} CountLoadedNone(n: nat)
    ensures CountLoaded(seq(n, _ => false)) == 0
  {
    if n > 0 {
      assert seq(n, _ => false)[..n - 1] == seq(n - 1, _ => false);
      CountLoadedNone(n - 1);
    }
  }

  /** Marking one more frame as loaded raises the count by exactly one. */
  lemma {:induction false} CountLoadedMark(loaded: seq<bool>, i: nat)
    requires i < |loaded| && !loaded[i]
    ensures CountLoaded(loaded[i := true]) == CountLoaded(loaded) + 1
  {
    var last := |loaded| - 1;
    var marked := loaded[i := true];
    if i == last {
      assert marked[..last] == loaded[..last];
    } else {
      assert marked[..last] == loaded[..last][i := true];
      CountLoadedMark(loaded[..last], i);
    }
  }

  /** The counter reaches the number of frames exactly when every frame has
      loaded: `loadedImageCount === images.length` is "all frames ready". */
  lemma {:induction false} AllLoadedIffCount(loaded: seq<bool>)
    ensures CountLoaded(loaded) == |loaded| <==> forall i :: 0 <= i < |loaded| ==> loaded[i]
  {
    if loaded != [] {
      var last := |loaded| - 1;
      AllLoadedIffCount(loaded[..last]);
      if CountLoaded(loaded) == |loaded| {
        forall i | 0 <= i < |loaded| ensures loaded[i] {
          if i < last { assert loaded[i] == loaded[..last][i]; }
        }
      }
      if forall i :: 0 <= i < |loaded| ==> loaded[i] {
        assert forall i :: 0 <= i < last ==> loaded[..last][i];
      }
    }
  }

  /** What painting slot `slot` of a sequence of `count` frames draws: that
      frame when the slot holds an image, nothing otherwise (`paintImage`
      checks `instanceof Image`, which fails for an index out of range). */
  function PaintedSlot(slot: int, count: nat): (drawn: seq<nat>)
    ensures |drawn| <= 1
    ensures drawn != [] <==> 0 <= slot < count
    ensures forall k :: 0 <= k < |drawn| ==> drawn[k] == slot
  {
    if 0 <= slot < count then [slot] else []
  }
}
