/** The keyboard and ARIA helpers of website/src/utils/accessibility.ts. */
module Accessibility {
  import opened Wrappers
  import opened Js

  /** `keyboardNavigation.handleArrowKeys`: the index handed to the callback,
      or `None` when the key is not one it handles (no callback, no
      `preventDefault`). With no items the arrow keys compute `x % 0`, which
      is `NaN`. */
  function HandleArrowKeys(key: string, currentIndex: int, itemCount: int): (r: Option<Number>)
    ensures r.None? <==> key !in {"ArrowDown", "ArrowRight", "ArrowUp", "ArrowLeft", "Home", "End"}
    ensures key == "Home" ==> r == Some(Num(0))
    ensures key == "End" ==> r == Some(Num(itemCount - 1))
    ensures key in {"ArrowDown", "ArrowRight"} ==> r == Some(Rem(currentIndex + 1, itemCount))
    ensures key in {"ArrowUp", "ArrowLeft"} ==> r == Some(Rem(currentIndex - 1 + itemCount, itemCount))
  {
    match key
    case "ArrowDown" => Some(Rem(currentIndex + 1, itemCount))
    case "ArrowRight" => Some(Rem(currentIndex + 1, itemCount))
    case "ArrowUp" => Some(Rem(currentIndex - 1 + itemCount, itemCount))
    case "ArrowLeft" => Some(Rem(currentIndex - 1 + itemCount, itemCount))
    case "Home" => Some(Num(0))
    case "End" => Some(Num(itemCount - 1))
    case _ => None
  }

  /** Down/Right from a position in a non-empty list moves one on, from the
      last position back to the first. */
  lemma NextWraps(i: int, n: int)
    requires 0 <= i < n
    ensures Rem(i + 1, n) == Num(if i == n - 1 then 0 else i + 1)
  {
    if i + 1 == n {
      assert (i + 1) % n == 0;
    } else {
      assert (i + 1) % n == i + 1;
    }
  }

  /** Up/Left from a position in a non-empty list moves one back, from the
      first position to the last. */
  lemma PreviousWraps(i: int, n: int)
    requires 0 <= i < n
    ensures Rem(i - 1 + n, n) == Num(if i == 0 then n - 1 else i - 1)
  {
    if i == 0 {
      assert (i - 1 + n) % n == n - 1;
    } else {
      assert (i - 1 + n) - n == i - 1;
      assert (i - 1 + n) % n == i - 1;
    }
  }

  /** From a position in a non-empty list, every handled key lands on a
      position in the list. */
  lemma ArrowsStayInRange(key: string, i: int, n: int)
    requires 0 <= i < n
    ensures var r := HandleArrowKeys(key, i, n);
      r.Some? ==> r.value.Num? && 0 <= r.value.value < n
  {
    NextWraps(i, n);
    PreviousWraps(i, n);
  }

  /** Down followed by Up comes back to the same position, and so does Up
      followed by Down. */
  lemma DownThenUp(i: int, n: int)
    requires 0 <= i < n
    ensures var down := HandleArrowKeys("ArrowDown", i, n).value.value;
      HandleArrowKeys("ArrowUp", down, n) == Some(Num(i))
    ensures var up := HandleArrowKeys("ArrowUp", i, n).value.value;
      HandleArrowKeys("ArrowDown", up, n) == Some(Num(i))
  {
    NextWraps(i, n);
    PreviousWraps(i, n);
    var down := if i == n - 1 then 0 else i + 1;
    var up := if i == 0 then n - 1 else i - 1;
    PreviousWraps(down, n);
    NextWraps(up, n);
  }

  /** With an empty list the arrows hand `NaN` to the callback. */
  lemma EmptyListArrowIsNaN(i: int)
    ensures HandleArrowKeys("ArrowDown", i, 0) == Some(NaN)
  {
  }

  /** The attributes `getAnimationAriaProps` returns. */
  datatype AriaProps = AriaProps(ariaLabel: string, ariaLive: string, ariaBusy: bool)

  /** `getAnimationAriaProps`. */
  function AnimationAriaProps(text: string, isAnimating: bool): (r: AriaProps)
    ensures r.ariaLabel == text
    ensures r.ariaLive == "polite" <==> isAnimating
    ensures r.ariaLive in {"polite", "off"}
    ensures r.ariaBusy == isAnimating
  {
    AriaProps(text, if isAnimating then "polite" else "off", isAnimating)
  }

  /** `getAccessibleAnimation`, with the reduced-motion preference as a
      parameter: under reduced motion, the fallback styles with `transition`
      and `animation` set to `"none"` (later spread keys win); otherwise the
      animation styles as given. */
  function AccessibleAnimation(animationStyles: map<string, string>, fallbackStyles: map<string, string>,
                               reduceMotion: bool): (r: map<string, string>)
    ensures !reduceMotion ==> r == animationStyles
    ensures reduceMotion ==>
      r.Keys == fallbackStyles.Keys + {"transition", "animation"} &&
      r["transition"] == "none" && r["animation"] == "none" &&
      forall k :: k in fallbackStyles && k != "transition" && k != "animation" ==> r[k] == fallbackStyles[k]
  {
    if reduceMotion then fallbackStyles["transition" := "none"]["animation" := "none"]
    else animationStyles
  }

  /** Under reduced motion the result does not depend on the animation
      styles, and applying the override to its own result changes nothing. */
  lemma ReducedMotionIgnoresAnimation(a1: map<string, string>, a2: map<string, string>, fallback: map<string, string>)
    ensures AccessibleAnimation(a1, fallback, true) == AccessibleAnimation(a2, fallback, true)
    ensures AccessibleAnimation(a1, AccessibleAnimation(a2, fallback, true), true) == AccessibleAnimation(a1, fallback, true)
  {
  }
}
