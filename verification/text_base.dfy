/**
  `VTKTextBase` (sksurgeryvtk/text/text_overlay.py): the validated setters
  shared by the positioned text and the centred banner. A text item is the
  string it shows and its bottom-left position in pixels.
 */
module TextBase {
  import opened Wrappers
  import opened PyValue

  /** The state the wrapper keeps for a text actor. */
  datatype TextItem = TextItem(text: string, x: real, y: real)

  /** The size of the render window in pixels, as VTK's `GetSize()`
      reports it at the moment of the call. */
  datatype Window = Window(width: nat, height: nat)

  const TextNotStringMessage := "Text input to VTKText is not a string."
  const XInvalidMessage := "x input to VTKText is not a valid number"
  const YInvalidMessage := "y input to VTKText is not a valid number"

  /** `validate_text_input`: only a string is accepted. */
  function ValidateTextInput(text: Value): (r: Result<string>)
    ensures r.Success? <==> text.StrV?
    ensures r.Success? ==> r.value == text.s
    ensures r.Failure? ==> r.error == TypeError(TextNotStringMessage)
  {
    if text.StrV? then Success(text.s) else Failure(TypeError(TextNotStringMessage))
  }

  /** `validate_x_y_inputs`: both coordinates must be an int or a float;
      `x` is checked before `y`. */
  function ValidateXYInputs(x: Value, y: Value): (r: Result<(real, real)>)
    ensures r.Success? <==> IsNumber(x) && IsNumber(y)
    ensures !IsNumber(x) ==> r == Failure(TypeError(XInvalidMessage))
    ensures IsNumber(x) && !IsNumber(y) ==> r == Failure(TypeError(YInvalidMessage))
    ensures r.Success? ==> r.value == (AsReal(x), AsReal(y))
  {
    if !IsNumber(x) then Failure(TypeError(XInvalidMessage))
    else if !IsNumber(y) then Failure(TypeError(YInvalidMessage))
    else Success((AsReal(x), AsReal(y)))
  }

  /** `set_text_string`: a string replaces the text; anything else raises
      and leaves the item as it was. */
  function SetTextString(t: TextItem, text: Value): (e: Effect<TextItem>)
    ensures e.Raised() <==> !text.StrV?
    ensures e.Raised() ==> e.after == t && e.raised == Some(TypeError(TextNotStringMessage))
    ensures !e.Raised() ==> e.after.text == text.s
    ensures e.after.x == t.x && e.after.y == t.y
  {
    match ValidateTextInput(text)
    case Success(s) => Effect(t.(text := s), None)
    case Failure(err) => Effect(t, Some(err))
  }

  /** `set_text_position`: the stored position changes only once both
      coordinates have been validated. */
  function SetTextPosition(t: TextItem, x: Value, y: Value): (e: Effect<TextItem>)
    ensures e.Raised() <==> !(IsNumber(x) && IsNumber(y))
    ensures e.Raised() ==> e.after == t
    ensures !IsNumber(x) ==> e.raised == Some(TypeError(XInvalidMessage))
    ensures IsNumber(x) && !IsNumber(y) ==> e.raised == Some(TypeError(YInvalidMessage))
    ensures !e.Raised() ==> e.after.x == AsReal(x) && e.after.y == AsReal(y)
    ensures e.after.text == t.text
  {
    match ValidateXYInputs(x, y)
    case Success((px, py)) => Effect(t.(x := px, y := py), None)
    case Failure(err) => Effect(t, Some(err))
  }

  /** Placing an item twice: the second position is the one kept, whatever
      the first was. */
  lemma SecondPositionWins(t: TextItem, x1: Value, y1: Value, x2: real, y2: real)
    ensures SetTextPosition(SetTextPosition(t, x1, y1).after, RealV(x2), RealV(y2))
            == SetTextPosition(t, RealV(x2), RealV(y2))
  {
  }

  /** Setting the text and setting the position touch disjoint parts of the
      item, so their order does not matter when both succeed. */
  lemma TextAndPositionCommute(t: TextItem, text: Value, x: Value, y: Value)
    ensures SetTextPosition(SetTextString(t, text).after, x, y).after
            == SetTextString(SetTextPosition(t, x, y).after, text).after
  {
  }

  /** A non-number coordinate raises and leaves the item as it was. */
  lemma RejectedPositionKeepsItem(t: TextItem, x: Value, y: Value)
    requires x.StrV? || y.StrV?
    ensures SetTextPosition(t, x, y).Raised()
    ensures SetTextPosition(t, x, y).after == t
  {
  }
}
