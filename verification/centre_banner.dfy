/**
  `VTKLargeTextCentreOfScreen` (sksurgeryvtk/text/text_overlay.py): a large
  message anchored one third of the way into the window. Unlike `VTKText`
  it keeps no fractions: every notification from the window recomputes the
  position from the current size alone, by integer division.
 */
module CentreBanner {
  import opened Wrappers
  import opened PyValue
  import opened TextBase
  import RelativeText

  datatype Banner = Banner(item: TextItem)

  /** `x` is a whole number of pixels. */
  predicate Whole(x: real) {
    x == x.Floor as real
  }

  /** `x` is the floor of a third of `n`, as Python's `n // 3` gives it for
      `n >= 0`. */
  predicate IsFloorThird(x: real, n: nat) {
    Whole(x) && 3 * x.Floor <= n < 3 * x.Floor + 3
  }

  /** `calculate_text_size`: the position becomes a third of the window's
      width and height, rounded down, whatever it was before. */
  function CalculateTextSize(b: Banner, w: Window): (b': Banner)
    ensures IsFloorThird(b'.item.x, w.width)
    ensures IsFloorThird(b'.item.y, w.height)
    ensures b'.item.text == b.item.text
  {
    var e := SetTextPosition(b.item, IntV(w.width / 3), IntV(w.height / 3));
    Banner(e.after)
  }

  /** `__init__`: the text is validated, then the position is computed from
      the window's size at construction. */
  function NewBanner(text: Value, w: Window): (r: Result<Banner>)
    ensures r.Success? <==> text.StrV?
    ensures r.Failure? ==> r.error == TypeError(TextNotStringMessage)
    ensures r.Success? ==> r.value.item.text == text.s
    ensures r.Success? ==> IsFloorThird(r.value.item.x, w.width)
    ensures r.Success? ==> IsFloorThird(r.value.item.y, w.height)
  {
    var s :- ValidateTextInput(text);
    Success(CalculateTextSize(Banner(TextItem(s, 0.0, 0.0)), w))
  }

  // ---------------------------------------------------------------------
  // Properties

  /** There is one floor third of a size, so the position is determined by
      the current size alone. */
  lemma FloorThirdUnique(x1: real, x2: real, n: nat)
    requires IsFloorThird(x1, n) && IsFloorThird(x2, n)
    ensures x1 == x2
  {
  }

  /** The banner keeps no history: two banners with the same text end up
      identical after a notification at the same size. */
  lemma BannerIgnoresHistory(b1: Banner, b2: Banner, w: Window)
    requires b1.item.text == b2.item.text
    ensures CalculateTextSize(b1, w) == CalculateTextSize(b2, w)
  {
  }

  /** The banner's anchor lies inside the window. */
  lemma BannerWithinWindow(b: Banner, w: Window)
    ensures RelativeText.InWindow(CalculateTextSize(b, w).item, w)
  {
  }

  /** When both sides are multiples of three the banner sits where a
      `VTKText` attached with fractions 1/3 would be put. */
  lemma BannerIsOneThirdOnMultiplesOfThree(b: Banner, w: Window)
    requires w.width % 3 == 0 && w.height % 3 == 0
    ensures CalculateTextSize(b, w).item
            == RelativeText.CallbackUpdatePosition(
                 RelativeText.VtkText(b.item, None, Some(1.0 / 3.0), Some(1.0 / 3.0)), w).item
  {
  }
}
