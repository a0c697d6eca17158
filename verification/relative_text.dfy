/**
  `VTKText` (sksurgeryvtk/text/text_overlay.py): a text placed at a pixel
  position that keeps its place relative to the window. When it is attached
  to a window it stores its position as fractions of the window's size;
  every later notification from the window places it at those fractions of
  the window's current size.
 */
module RelativeText {
  import opened Wrappers
  import opened PyValue
  import opened TextBase

  /** The state of a `VTKText`: its text item, the window it was last
      attached to (by identity, since the window's size is passed to every
      call that reads it), and the two fractions, each present once it has
      been written. */
  datatype VtkText = VtkText(
    item: TextItem,
    parent: Option<nat>,
    xRelative: Option<real>,
    yRelative: Option<real>)

  /** Both fractions have been written. The resize observer is registered
      only after an attach that wrote both, so every notification finds
      the text anchored. */
  predicate Anchored(v: VtkText) {
    v.xRelative.Some? && v.yRelative.Some?
  }

  /** `__init__`: the text is validated first, then the position. Font size
      and colour are passed to VTK unchecked and are not modelled. A new
      text has no window and no fractions. */
  function NewText(text: Value, x: Value, y: Value): (r: Result<VtkText>)
    ensures r.Success? <==> text.StrV? && IsNumber(x) && IsNumber(y)
    ensures !text.StrV? ==> r == Failure(TypeError(TextNotStringMessage))
    ensures text.StrV? && !IsNumber(x) ==> r == Failure(TypeError(XInvalidMessage))
    ensures text.StrV? && IsNumber(x) && !IsNumber(y) ==> r == Failure(TypeError(YInvalidMessage))
    ensures r.Success? ==> r.value.item == TextItem(text.s, AsReal(x), AsReal(y))
    ensures r.Success? ==> r.value.parent.None? && r.value.xRelative.None? && r.value.yRelative.None?
  {
    var s :- ValidateTextInput(text);
    var pos :- ValidateXYInputs(x, y);
    Success(VtkText(TextItem(s, pos.0, pos.1), None, None, None))
  }

  /** `calculate_relative_position_in_window`: the position as fractions of
      the size `w` of the current parent window. A text never attached has
      no `parent_window` attribute, so reading it raises before anything is
      written. Python's true division raises on a zero divisor. The x
      fraction is written before the y fraction is computed, so a zero
      height raises with the x fraction already replaced. */
  function CalculateRelativePosition(v: VtkText, w: Window): (e: Effect<VtkText>)
    ensures v.parent.None? ==> e == Effect(v, Some(AttributeError(ParentWindowAttribute)))
    ensures e.Raised() <==> v.parent.None? || w.width == 0 || w.height == 0
    ensures v.parent.Some? && e.Raised() ==> e.raised == Some(ZeroDivisionError)
    ensures e.after.item == v.item && e.after.parent == v.parent
    ensures w.width == 0 ==> e.after == v
    ensures v.parent.Some? && w.width > 0 ==>
              e.after.xRelative.Some? && e.after.xRelative.value * w.width as real == v.item.x
    ensures w.height == 0 ==> e.after.yRelative == v.yRelative
    ensures v.parent.Some? && w.width > 0 && w.height > 0 ==>
              e.after.yRelative.Some? && e.after.yRelative.value * w.height as real == v.item.y
  {
    if v.parent.None? then
      Effect(v, Some(AttributeError(ParentWindowAttribute)))
    else if w.width == 0 then
      Effect(v, Some(ZeroDivisionError))
    else
      var v1 := v.(xRelative := Some(v.item.x / w.width as real));
      if w.height == 0 then
        Effect(v1, Some(ZeroDivisionError))
      else
        Effect(v1.(yRelative := Some(v.item.y / w.height as real)), None)
  }

  /** The attribute holding the parent window. */
  const ParentWindowAttribute := "parent_window"

  /** `set_parent_window`: the window reference is replaced first, then the
      fractions are computed against that window's size `w`. The resize
      observer it registers on success is modelled by calling
      `CallbackUpdatePosition` with each later size of the parent window. */
  function SetParentWindow(v: VtkText, parent: nat, w: Window): (e: Effect<VtkText>)
    ensures e.after.parent == Some(parent)
    ensures e.after.item == v.item
    ensures e.Raised() <==> w.width == 0 || w.height == 0
    ensures e.Raised() ==> e.raised == Some(ZeroDivisionError)
    ensures w.width == 0 ==> e.after == v.(parent := Some(parent))
    ensures w.height == 0 ==> e.after.yRelative == v.yRelative
    ensures w.width > 0 ==>
              e.after.xRelative.Some? && e.after.xRelative.value * w.width as real == v.item.x
    ensures !e.Raised() ==>
              Anchored(e.after) && e.after.yRelative.value * w.height as real == v.item.y
  {
    CalculateRelativePosition(v.(parent := Some(parent)), w)
  }

  /** `callback_update_position_in_window`: on every notification from the
      window, the text goes to the stored fractions of the parent window's
      current size `w`. The new position is a float, so the position setter
      never raises. */
  function CallbackUpdatePosition(v: VtkText, w: Window): (v': VtkText)
    requires Anchored(v)
    ensures v'.item.x == v.xRelative.value * w.width as real
    ensures v'.item.y == v.yRelative.value * w.height as real
    ensures v'.item.text == v.item.text
    ensures v'.parent == v.parent && v'.xRelative == v.xRelative && v'.yRelative == v.yRelative
  {
    var e := SetTextPosition(v.item,
                             RealV(v.xRelative.value * w.width as real),
                             RealV(v.yRelative.value * w.height as real));
    v.(item := e.after)
  }

  // ---------------------------------------------------------------------
  // Properties

  /** Once anchored, a text stays anchored: a later attach, even one that
      raises, never removes a fraction, and moving or renaming the text does
      not touch them. So a notification always finds both fractions. */
  lemma AnchoredIsKept(v: VtkText, parent: nat, w: Window, text: Value, x: Value, y: Value)
    requires Anchored(v)
    ensures Anchored(SetParentWindow(v, parent, w).after)
    ensures Anchored(v.(item := SetTextPosition(v.item, x, y).after))
    ensures Anchored(v.(item := SetTextString(v.item, text).after))
  {
  }

  /** Computing fractions for a text that was never attached raises
      AttributeError and changes nothing; attaching it first makes the same
      computation succeed on a non-empty window. */
  lemma UnattachedHasNoParent(t: TextItem, parent: nat, w: Window)
    requires w.width > 0 && w.height > 0
    ensures CalculateRelativePosition(VtkText(t, None, None, None), w).raised
            == Some(AttributeError(ParentWindowAttribute))
    ensures !SetParentWindow(VtkText(t, None, None, None), parent, w).Raised()
  {
  }

  /** Re-attaching an anchored text to a window of zero height raises, yet
      leaves the new window as parent, the x fraction taken against the new
      width and the y fraction from before. */
  lemma FailedAttachHalfUpdates(v: VtkText, parent: nat, w: Window)
    requires Anchored(v) && w.width > 0 && w.height == 0
    ensures var e := SetParentWindow(v, parent, w);
            && e.raised == Some(ZeroDivisionError)
            && e.after.parent == Some(parent)
            && e.after.xRelative.value * w.width as real == v.item.x
            && e.after.yRelative == v.yRelative
  {
  }

  /** A notification at the attach-time size puts the text back exactly
      where it was. */
  lemma CallbackAtAttachSizeRestores(v: VtkText, parent: nat, w: Window)
    requires w.width > 0 && w.height > 0
    ensures !SetParentWindow(v, parent, w).Raised()
    ensures CallbackUpdatePosition(SetParentWindow(v, parent, w).after, w).item == v.item
  {
  }

  /** Repeated notifications at one size leave the text where the first
      one put it. */
  lemma CallbackIdempotent(v: VtkText, w: Window)
    requires Anchored(v)
    ensures CallbackUpdatePosition(CallbackUpdatePosition(v, w), w)
            == CallbackUpdatePosition(v, w)
  {
  }

  /** No drift: the position after a notification depends only on the
      stored fractions and the current size, never on earlier
      notifications. */
  lemma CallbackForgetsEarlierSizes(v: VtkText, w1: Window, w2: Window)
    requires Anchored(v)
    ensures CallbackUpdatePosition(CallbackUpdatePosition(v, w1), w2)
            == CallbackUpdatePosition(v, w2)
  {
  }

  /** Moving an attached text by hand does not change its fractions, so the
      next notification overrides the move. */
  lemma CallbackOverridesManualMove(v: VtkText, x: Value, y: Value, w: Window)
    requires Anchored(v)
    ensures CallbackUpdatePosition(v.(item := SetTextPosition(v.item, x, y).after), w)
            == CallbackUpdatePosition(v, w)
  {
  }

  /** Scaling the window by `k` scales the text's position by `k`. */
  lemma CallbackScalesWithWindow(v: VtkText, w: Window, k: nat)
    requires Anchored(v)
    ensures CallbackUpdatePosition(v, Window(k * w.width, k * w.height)).item.x
            == k as real * CallbackUpdatePosition(v, w).item.x
    ensures CallbackUpdatePosition(v, Window(k * w.width, k * w.height)).item.y
            == k as real * CallbackUpdatePosition(v, w).item.y
  {
  }

  /** Both fractions are present and lie in [0, 1]. */
  predicate UnitFractions(v: VtkText) {
    && Anchored(v)
    && 0.0 <= v.xRelative.value <= 1.0
    && 0.0 <= v.yRelative.value <= 1.0
  }

  /** A text attached inside the window gets fractions in [0, 1]. */
  lemma AttachInsideGivesUnitFractions(v: VtkText, parent: nat, w: Window)
    requires w.width > 0 && w.height > 0
    requires 0.0 <= v.item.x <= w.width as real && 0.0 <= v.item.y <= w.height as real
    ensures !SetParentWindow(v, parent, w).Raised()
    ensures UnitFractions(SetParentWindow(v, parent, w).after)
  {
    var a := SetParentWindow(v, parent, w).after;
    FractionInUnit(v.item.x, w.width as real, a.xRelative.value);
    FractionInUnit(v.item.y, w.height as real, a.yRelative.value);
  }

  /** With fractions in [0, 1], every notification keeps the text inside
      the window, whatever its size. */
  lemma CallbackKeepsInside(v: VtkText, w: Window)
    requires UnitFractions(v)
    ensures InWindow(CallbackUpdatePosition(v, w).item, w)
  {
    var b := CallbackUpdatePosition(v, w);
    ScaledStaysWithin(v.xRelative.value, w.width, b.item.x);
    ScaledStaysWithin(v.yRelative.value, w.height, b.item.y);
  }

  /** The position lies in the window's rectangle. */
  predicate InWindow(t: TextItem, w: Window) {
    0.0 <= t.x <= w.width as real && 0.0 <= t.y <= w.height as real
  }

  lemma FractionInUnit(p: real, d: real, f: real)
    requires d > 0.0 && 0.0 <= p <= d && f * d == p
    ensures 0.0 <= f <= 1.0
  {
  }

  lemma ScaledStaysWithin(f: real, n: nat, p: real)
    requires 0.0 <= f <= 1.0 && p == f * n as real
    ensures 0.0 <= p <= n as real
  {
    var d := n as real;
    assert f * d <= 1.0 * d;
  }
}
