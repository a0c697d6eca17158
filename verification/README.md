# scikit-surgeryvtk text overlays and error observer, in Dafny

This project models the two behavioural units of scikit-surgeryvtk that hold
logic of their own once the VTK objects are abstracted away:

- the **VTK error observer**, a latch that VTK's error and warning events
  set. `error_occurred()` reads and clears the flag. `error_message()`
  returns the last message and never clears anything.
- the **text overlays**:
  - the corner annotation, whose setter accepts a list of exactly four
    strings;
  - the validated text and position setters shared by all text items;
  - `VTKText`, which stores its position as fractions of the window size
    when it is attached, and rescales on every window notification;
  - `VTKLargeTextCentreOfScreen`, which recomputes its position as a third
    of the window size on every notification.

Python's dynamic values are the `PyValue.Value` datatype (`int`, `float`,
`str`, `list`, anything else). Raised exceptions are `Wrappers.Error`
(`TypeError`, `ValueError`, `ZeroDivisionError`, `AttributeError`). A call that returns a value
or raises is a `Result`. A call on an object is an `Effect`: the object's
state after the call and the exception, if any. VTK's `GetSize()` is an
explicit `Window(width, height)` argument. Positions are `real`, and window
sizes are `nat`.

Files, one module each:

| file | module | models |
|---|---|---|
| wrappers.dfy | `Wrappers` | `Option`, `Error`, `Result`, `Effect` |
| decimal.dfy | `Decimal` | Python's `str(n)` for `n >= 0` and its inverse |
| py_value.dfy | `PyValue` | dynamic values and the `isinstance(v, (int, float))` check |
| error_observer.dfy | `ErrorObserver` | `ErrorObserver` |
| corner_annotation.dfy | `CornerAnnotation` | `VTKCornerAnnotation` |
| text_base.dfy | `TextBase` | `VTKTextBase` |
| relative_text.dfy | `RelativeText` | `VTKText` |
| centre_banner.dfy | `CentreBanner` | `VTKLargeTextCentreOfScreen` |

`calculate_relative_position_in_window` divides the position by the window
size. When the width or height is zero, Python raises `ZeroDivisionError`
there. The model returns that error rather than excluding a zero size by a
precondition.

## Model

| member | source | states |
|---|---|---|
| ErrorObserver.Init | sksurgeryvtk/vtk/error_observer.py:8-10 | a new observer has its flag cleared and no message |
| ErrorObserver.Record | sksurgeryvtk/vtk/error_observer.py:13-15 | a notification sets the flag and replaces the message, so the next message read returns it and the next poll returns true |
| ErrorObserver.ErrorMessage | sksurgeryvtk/vtk/error_observer.py:25-29 | returns the stored message, and the observer is unchanged; MessageIsLastNotify says which message that is |
| ErrorObserver.InitReportsNothing | sksurgeryvtk/vtk/error_observer.py:8-10 | a fresh observer's poll returns false and its message is None |
| ErrorObserver.ErrorOccurred | sksurgeryvtk/vtk/error_observer.py:17-23 | the poll returns the flag, leaves it cleared and keeps the message |
| ErrorObserver.PollAfterRecord | sksurgeryvtk/vtk/error_observer.py:13-15 | after any notification, whatever the earlier state, the next poll returns true |
| ErrorObserver.PollTwice | sksurgeryvtk/vtk/error_observer.py:21-23 | read-and-clear: two polls in a row with no notification between them return true, then false |
| ErrorObserver.ReadsDoNotInterfere | sksurgeryvtk/vtk/error_observer.py:17-29 | a poll never changes the message, and reading the message changes nothing |
| ErrorObserver.FlagFallsOnlyOnPoll | sksurgeryvtk/vtk/error_observer.py:13-23 | the flag goes from true to false only through a poll, and a notification always leaves it set |
| ErrorObserver.MessageChangesOnlyOnNotify | sksurgeryvtk/vtk/error_observer.py:13-29 | only a notification changes the stored message |
| ErrorObserver.LastWriteWins | sksurgeryvtk/vtk/error_observer.py:13-15 | after notifications m1..mn from any state, the message is mn and the flag is set |
| ErrorObserver.FlagMeansUnreadNotify | sksurgeryvtk/vtk/error_observer.py:8-23 | from a fresh observer, after any sequence of calls, the flag is set if and only if some notification has not been followed by a poll |
| ErrorObserver.MessageIsLastNotify | sksurgeryvtk/vtk/error_observer.py:8-29 | from a fresh observer, the message is that of the last notification, or None if there was none |
| Decimal.NatToString | sksurgeryvtk/text/text_overlay.py:21 | `str(i)` for i >= 0 is a non-empty string of decimal digits with no leading zero (except "0"), one digit for i < 10 |
| Decimal.ParseNatToString | sksurgeryvtk/text/text_overlay.py:21 | `str(i)` is lossless: parsing its digits gives `i` back |
| Decimal.SmallNatToString | sksurgeryvtk/text/text_overlay.py:19-21 | the corner labels 0..3 are the strings "0".."3" |
| CornerAnnotation.New | sksurgeryvtk/text/text_overlay.py:15-21 | a new annotation has four corners, and corner i shows the decimal string of i |
| CornerAnnotation.FirstNonString | sksurgeryvtk/text/text_overlay.py:47-49 | the scan finds the first item in list order that is not a string, or finds that every item is a string |
| CornerAnnotation.ValidateInput | sksurgeryvtk/text/text_overlay.py:35-49 | accepts exactly lists of four strings. Otherwise: a non-list raises TypeError; a list of the wrong length raises ValueError; a four-item list raises ValueError naming its first non-string index |
| CornerAnnotation.SetText | sksurgeryvtk/text/text_overlay.py:23-33 | a valid list sets corner i to item i. An invalid one raises the validator's error and leaves every corner as it was |
| CornerAnnotation.ValidateInputErrorKinds | sksurgeryvtk/text/text_overlay.py:41-49 | for every rejected input: the error is a TypeError exactly when the input is not a list; it is the length ValueError exactly when a list has the wrong length; otherwise it is the ValueError naming the first non-string index |
| CornerAnnotation.NotStringMessageNamesIndex | sksurgeryvtk/text/text_overlay.py:47-49 | different indices give different non-string messages, so the message identifies the index |
| CornerAnnotation.ValidateInputExamples | sksurgeryvtk/text/text_overlay.py:35-49 | a three-item list is rejected; a list with an int at index 1 is rejected naming position 1; ["a","b","c","d"] is accepted; a string is rejected with TypeError |
| PyValue.IsNumber | sksurgeryvtk/text/text_overlay.py:108-114 | `isinstance(v, (int, float))` holds exactly for ints and floats: strings, lists and every other object fail it |
| PyValue.AsReal | sksurgeryvtk/text/text_overlay.py:108-114 | an accepted int or float denotes the same number as a real |
| TextBase.ValidateTextInput | sksurgeryvtk/text/text_overlay.py:92-100 | accepts a value if and only if it is a string; otherwise raises TypeError |
| TextBase.ValidateXYInputs | sksurgeryvtk/text/text_overlay.py:102-116 | accepts exactly two ints or floats. x is checked before y, each with its own TypeError |
| TextBase.SetTextString | sksurgeryvtk/text/text_overlay.py:58-63 | a string replaces the text. Anything else raises TypeError and leaves the item unchanged. The position is never touched |
| TextBase.SetTextPosition | sksurgeryvtk/text/text_overlay.py:65-75 | numeric x and y become the stored position. Otherwise it raises the x error or the y error, in that order, and leaves the item unchanged. The text is never touched |
| TextBase.SecondPositionWins | sksurgeryvtk/text/text_overlay.py:65-75 | placing an item twice keeps only the second position |
| TextBase.TextAndPositionCommute | sksurgeryvtk/text/text_overlay.py:58-75 | setting the text and setting the position act on separate parts of the item, so their order does not matter |
| TextBase.RejectedPositionKeepsItem | sksurgeryvtk/text/text_overlay.py:65-75 | a string coordinate raises and leaves the stored position as it was |
| RelativeText.NewText | sksurgeryvtk/text/text_overlay.py:134-146 | construction succeeds if and only if the text is a string and both coordinates are numbers. The text is checked first, then x, then y |
| RelativeText.CalculateRelativePosition | sksurgeryvtk/text/text_overlay.py:158-167 | a text never attached has no `parent_window`, so the call raises AttributeError for that attribute and changes nothing. Otherwise the fractions, multiplied by the window size, give the position back. A zero width raises ZeroDivisionError with nothing changed. A zero height raises after x_relative has been written, with y_relative unchanged |
| RelativeText.SetParentWindow | sksurgeryvtk/text/text_overlay.py:148-156 | the parent window is replaced even when the call raises. The item is kept. A zero width changes nothing else. x_relative·width = x once the width is non-zero, and both fractions are present and satisfy x_relative·width = x and y_relative·height = y when neither dimension is zero. A zero dimension raises ZeroDivisionError |
| RelativeText.CallbackUpdatePosition | sksurgeryvtk/text/text_overlay.py:176-186 | a notification places the text at (x_relative·width, y_relative·height) for the parent window's current size. The text, parent and fractions are unchanged |
| RelativeText.AnchoredIsKept | sksurgeryvtk/text/text_overlay.py:58-167 | once both fractions exist, no attach (even a raising one), move or text change removes either, so the callback, registered only after a full attach, always finds them |
| RelativeText.UnattachedHasNoParent | sksurgeryvtk/text/text_overlay.py:148-167 | computing fractions for a text that was never attached raises AttributeError naming `parent_window`; attaching it to a non-empty window first makes the computation succeed |
| RelativeText.FailedAttachHalfUpdates | sksurgeryvtk/text/text_overlay.py:148-167 | re-attaching to a window of zero height raises ZeroDivisionError but leaves the new parent, a new x fraction and the old y fraction |
| RelativeText.CallbackAtAttachSizeRestores | sksurgeryvtk/text/text_overlay.py:158-186 | a notification at the attach-time size restores the original position exactly |
| RelativeText.CallbackIdempotent | sksurgeryvtk/text/text_overlay.py:176-186 | repeated notifications at one size are idempotent |
| RelativeText.CallbackForgetsEarlierSizes | sksurgeryvtk/text/text_overlay.py:176-186 | there is no drift: the position depends only on the fractions and the current size, never on earlier notifications |
| RelativeText.CallbackOverridesManualMove | sksurgeryvtk/text/text_overlay.py:65-75 | moving an attached text by hand leaves its fractions alone, so the next notification overrides the move |
| RelativeText.CallbackScalesWithWindow | sksurgeryvtk/text/text_overlay.py:176-186 | scaling both window sides by k scales the position by k |
| RelativeText.AttachInsideGivesUnitFractions | sksurgeryvtk/text/text_overlay.py:158-167 | a text attached inside the window gets fractions in [0, 1] |
| RelativeText.CallbackKeepsInside | sksurgeryvtk/text/text_overlay.py:176-186 | with fractions in [0, 1], every notification keeps the text inside the window |
| CentreBanner.CalculateTextSize | sksurgeryvtk/text/text_overlay.py:210-222 | the position becomes a whole number of pixels in each direction, the floor of a third of the current width and height. The text is unchanged |
| CentreBanner.NewBanner | sksurgeryvtk/text/text_overlay.py:198-208 | construction succeeds if and only if the text is a string. The banner then sits at a third of the window size |
| CentreBanner.BannerIgnoresHistory | sksurgeryvtk/text/text_overlay.py:210-222 | two banners with the same text are identical after a notification at the same size, whatever their earlier positions |
| CentreBanner.BannerWithinWindow | sksurgeryvtk/text/text_overlay.py:210-222 | the banner's anchor lies within [0, width] × [0, height] |
| CentreBanner.BannerIsOneThirdOnMultiplesOfThree | sksurgeryvtk/text/text_overlay.py:210-222 | when both sides are multiples of three, the banner sits where a `VTKText` with fractions 1/3 would go |

## Left out

- VTK objects and their property pass-throughs are left out: `vtkTextActor`, `vtkCornerAnnotation`, `SetTextScaleModeToViewport`, `set_font_size` and `set_colour`. They are foreign calls with no logic of their own. Font size and colour are not validated by the source either.
- The unpacking `r, g, b = colour` in `VTKText.__init__` is left out, together with the error it raises for a colour that is not a triple.
- Observer registration (`AddObserver('ModifiedEvent', ...)`) and VTK event dispatch are left out. The resize callbacks are explicit functions applied to the current window size.
- The attribute `call_data_type = 'string0'` that the observer's constructor sets is left out. The model takes it that VTK calls the observer with a message, as `__call__` requires. The `obj` and `event` arguments of `__call__` are ignored by the source and left out.
- Floating-point rounding of `x / width` and `x_relative * width` is left out. Positions are exact reals, so the restore and idempotence lemmas hold exactly. With floats they hold only up to rounding.
- Python `bool` passes the `int` check in the source. `Value` has no separate bool case, so a bool is an `IntV`.
- Python floats are reals: NaN and infinities are not modelled.
- The exception message Python attaches to `ZeroDivisionError` is not modelled.
- Re-attaching a text to a second window is modelled as another `SetParentWindow`, which replaces the parent. The source also adds another observer then, to the new window, and observers are left out. An earlier observer would still call `CallbackUpdatePosition`, which reads the current parent's size; the model's callback takes that size as its argument.
- RelativeText.CallbackUpdatePosition: requires both fractions to be present. In the source the callback is registered only at line 156, after an attach that wrote both (lines 166-167), and `AnchoredIsKept` shows that nothing removes them afterwards.
- Logging setup at the top of text_overlay.py is left out.
- The Qt/VTK rendering tests are left out, because they exercise GUI widgets and hold no modellable logic.
