/**
  `VTKCornerAnnotation` (sksurgeryvtk/text/text_overlay.py): a text in each
  of the four corners of the window. Its setter takes a Python value that
  must be a list of exactly four strings and rejects anything else before
  writing any corner.
 */
module CornerAnnotation {
  import opened Wrappers
  import opened PyValue
  import Decimal

  /** The number of corner slots the wrapper writes. */
  const CornerCount: nat := 4

  /** The texts of the wrapped `vtkCornerAnnotation`, one per slot 0..3. */
  datatype Annotation = Annotation(corners: seq<string>) {
    predicate Valid() {
      |corners| == CornerCount
    }
  }

  /** A `vtkCornerAnnotation` as VTK creates it: every corner empty. */
  function Blank(): (a: Annotation)
    ensures a.Valid()
  {
    Annotation(seq(CornerCount, _ => ""))
  }

  /** `vtkCornerAnnotation.SetText(i, s)`: slot `i` shows `s`, the others
      keep their text. */
  function SetCorner(a: Annotation, i: nat, s: string): (a': Annotation)
    requires i < |a.corners|
    ensures |a'.corners| == |a.corners|
    ensures a'.corners[i] == s
    ensures forall j :: 0 <= j < |a.corners| && j != i ==> a'.corners[j] == a.corners[j]
  {
    Annotation(a.corners[i := s])
  }

  /** `__init__`: corner `i` is labelled with the decimal string of `i`. */
  method New() returns (a: Annotation)
    ensures a.Valid()
    ensures forall i :: 0 <= i < CornerCount ==> a.corners[i] == Decimal.NatToString(i)
  {
    a := Blank();
    for i := 0 to CornerCount
      invariant |a.corners| == CornerCount
      invariant forall j :: 0 <= j < i ==> a.corners[j] == Decimal.NatToString(j)
    {
      a := SetCorner(a, i, Decimal.NatToString(i));
    }
  }

  // ---------------------------------------------------------------------
  // Validation

  const NotListMessage := "text_list is not a list"
  const WrongLengthMessage := "Incorrect number of elements in text_list"

  /** The message naming the first list item that is not a string. */
  function NotStringMessage(idx: nat): string {
    "Item at position " + Decimal.NatToString(idx) + " is not a string"
  }

  /** What the setter accepts: a list of exactly four strings. */
  predicate IsTextList(v: Value) {
    && v.ListV?
    && |v.items| == CornerCount
    && forall i :: 0 <= i < |v.items| ==> v.items[i].StrV?
  }

  /** `items[i]` is the first item that is not a string. */
  predicate FirstNonStringAt(items: seq<Value>, i: nat)
    requires i < |items|
  {
    !items[i].StrV? && forall j :: 0 <= j < i ==> items[j].StrV?
  }

  /** The index of the first non-string item at or after `from`, scanning
      in list order as the validator's loop does. */
  function FirstNonString(items: seq<Value>, from: nat): (r: Option<nat>)
    requires from <= |items|
    requires forall j :: 0 <= j < from ==> items[j].StrV?
    ensures r.None? ==> forall j :: 0 <= j < |items| ==> items[j].StrV?
    ensures r.Some? ==> r.value < |items| && FirstNonStringAt(items, r.value)
    decreases |items| - from
  {
    if from == |items| then None
    else if !items[from].StrV? then Some(from)
    else FirstNonString(items, from + 1)
  }

  /** `validate_input`: the type of the argument is checked first, then its
      length, then each item in order. On success the four strings are
      returned. */
  function ValidateInput(v: Value): (r: Result<seq<string>>)
    ensures r.Success? <==> IsTextList(v)
    ensures !v.ListV? ==> r == Failure(TypeError(NotListMessage))
    ensures v.ListV? && |v.items| != CornerCount ==> r == Failure(ValueError(WrongLengthMessage))
    ensures v.ListV? && |v.items| == CornerCount ==>
              forall i :: 0 <= i < |v.items| && FirstNonStringAt(v.items, i) ==>
                r == Failure(ValueError(NotStringMessage(i)))
    ensures r.Success? ==>
              |r.value| == CornerCount &&
              forall i :: 0 <= i < CornerCount ==> r.value[i] == v.items[i].s
  {
    if !v.ListV? then
      Failure(TypeError(NotListMessage))
    else if |v.items| != CornerCount then
      Failure(ValueError(WrongLengthMessage))
    else
      match FirstNonString(v.items, 0)
      case Some(i) =>
        FirstNonStringUnique(v.items, i);
        Failure(ValueError(NotStringMessage(i)))
      case None =>
        Success(seq(CornerCount, i requires 0 <= i < CornerCount => v.items[i].s))
  }

  /** There is at most one first non-string item. */
  lemma FirstNonStringUnique(items: seq<Value>, i: nat)
    requires i < |items| && FirstNonStringAt(items, i)
    ensures forall k :: 0 <= k < |items| && FirstNonStringAt(items, k) ==> k == i
  {
  }

  /** `set_text`: validates, then writes each corner in turn. An invalid
      argument raises before any corner is written. */
  method SetText(a: Annotation, textList: Value) returns (e: Effect<Annotation>)
    requires a.Valid()
    ensures e.after.Valid()
    ensures e.Raised() <==> !IsTextList(textList)
    ensures e.Raised() ==> e.after == a && e.raised == Some(ValidateInput(textList).error)
    ensures !e.Raised() ==>
              forall i :: 0 <= i < CornerCount ==> e.after.corners[i] == textList.items[i].s
  {
    var checked := ValidateInput(textList);
    if checked.Failure? {
      return Effect(a, Some(checked.error));
    }
    var texts := checked.value;
    var b := a;
    for idx := 0 to |texts|
      invariant |b.corners| == CornerCount
      invariant forall j :: 0 <= j < idx ==> b.corners[j] == texts[j]
    {
      b := SetCorner(b, idx, texts[idx]);
    }
    return Effect(b, None);
  }

  // ---------------------------------------------------------------------
  // Properties

  /** For every rejected input, the kind of error tells which check failed:
      TypeError exactly for a non-list, the length message exactly for a
      list of the wrong length, and otherwise a message naming an index. */
  lemma ValidateInputErrorKinds(v: Value)
    requires ValidateInput(v).Failure?
    ensures ValidateInput(v).error.TypeError? <==> !v.ListV?
    ensures ValidateInput(v).error == ValueError(WrongLengthMessage) <==>
              v.ListV? && |v.items| != CornerCount
    ensures v.ListV? && |v.items| == CornerCount ==>
              exists i :: 0 <= i < |v.items| && FirstNonStringAt(v.items, i) &&
                ValidateInput(v).error == ValueError(NotStringMessage(i))
  {
  }

  /** The not-a-string message names the index: distinct indices give
      distinct messages. */
  lemma NotStringMessageNamesIndex(i: nat, j: nat)
    requires NotStringMessage(i) == NotStringMessage(j)
    ensures i == j
  {
    var prefix := "Item at position ";
    var suffix := " is not a string";
    var m := NotStringMessage(i);
    assert m == prefix + Decimal.NatToString(i) + suffix;
    assert m[|prefix|..|m| - |suffix|] == Decimal.NatToString(i);
    assert NotStringMessage(j) == prefix + Decimal.NatToString(j) + suffix;
    assert m[|prefix|..|m| - |suffix|] == Decimal.NatToString(j);
    Decimal.NatToStringInjective(i, j);
  }

  /** A three-item list, a list with a non-string, and four strings. */
  lemma ValidateInputExamples()
    ensures ValidateInput(ListV([StrV("a"), StrV("b"), StrV("c")]))
            == Failure(ValueError(WrongLengthMessage))
    ensures ValidateInput(ListV([StrV("a"), IntV(1), StrV("c"), Other]))
            == Failure(ValueError("Item at position 1 is not a string"))
    ensures ValidateInput(ListV([StrV("a"), StrV("b"), StrV("c"), StrV("d")]))
            == Success(["a", "b", "c", "d"])
    ensures ValidateInput(StrV("abcd")) == Failure(TypeError(NotListMessage))
  {
    var bad := [StrV("a"), IntV(1), StrV("c"), Other];
    assert FirstNonStringAt(bad, 1);
    Decimal.SmallNatToString();
    assert NotStringMessage(1) == "Item at position 1 is not a string";
    var good := ListV([StrV("a"), StrV("b"), StrV("c"), StrV("d")]);
    var r := ValidateInput(good);
    assert r.Success? && |r.value| == 4;
    assert r.value[0] == "a" && r.value[1] == "b" && r.value[2] == "c" && r.value[3] == "d";
    assert r.value == ["a", "b", "c", "d"];
  }
}
