/** The assertion checker.

    `Equals` decides whether an expected and an actual operand are equal,
    trying its checks in a fixed order: absence, supported kinds, type
    identity, then element-wise comparison for arrays and slices or plain
    value equality for everything else.  Every failing path writes one
    report, routed by the severity `level`; the answer itself never depends
    on the level.
 */
module Asserts {
  import opened Reflection
  import opened Sink

  /** Deep equality of two operands.  It holds exactly when the operands are
      structurally equal and contain nothing of a refused kind. */
  function Equals(level: int, expected: Value, actual: Value): (r: Outcome)
    requires WellTyped(expected) && WellTyped(actual)
    ensures r.ok <==> expected == actual && Comparable(expected)
    ensures WellReported(level, r)
    decreases expected, 2, 0
  {
    if (expected.Nil? || actual.Nil?) && expected != actual then
      Fail(level, Mismatch(expected, actual))
    else if expected.Nil? && actual.Nil? then
      Pass
    else if !IsSupported(expected.ty.kind) || !IsSupported(actual.ty.kind) then
      Fail(level, UnsupportedKinds(expected.ty.kind, actual.ty.kind))
    else if expected.ty != actual.ty then
      Fail(level, Mismatch(expected, actual))
    else if IsArray(expected.ty.kind) && IsArray(actual.ty.kind) then
      CheckArray(level, expected, actual)
    else if expected != actual then
      Fail(level, Mismatch(expected, actual))
    else
      Pass
  }

  /** Two arrays or slices of one type: their lengths must agree before any
      element is looked at; then every element must be `Equals`. */
  function CheckArray(level: int, expected: Value, actual: Value): (r: Outcome)
    requires expected.List? && actual.List?
    requires WellTyped(expected) && WellTyped(actual)
    ensures r.ok <==> expected.elems == actual.elems && Comparable(expected)
    ensures WellReported(level, r)
    decreases expected, 1, 0
  {
    if |expected.elems| != |actual.elems| then
      Fail(level, LengthMismatch(|expected.elems|, |actual.elems|))
    else
      CheckFrom(level, expected, actual, 0)
  }

  /** The element loop from index `i` on: it stops at the first pair that is
      not `Equals` and hands back that comparison's outcome. */
  function CheckFrom(level: int, expected: Value, actual: Value, i: nat): (r: Outcome)
    requires expected.List? && actual.List?
    requires WellTyped(expected) && WellTyped(actual)
    requires |expected.elems| == |actual.elems| && i <= |expected.elems|
    ensures r.ok <==> forall j :: i <= j < |expected.elems| ==>
      expected.elems[j] == actual.elems[j] && Comparable(expected.elems[j])
    ensures WellReported(level, r)
    decreases expected, 0, |expected.elems| - i
  {
    if i == |expected.elems| then
      Pass
    else
      var head := Equals(level, expected.elems[i], actual.elems[i]);
      if !head.ok then head else CheckFrom(level, expected, actual, i + 1)
  }

  /** `actual` is absent. */
  function IsNil(level: int, actual: Value): (r: Outcome)
    requires WellTyped(actual)
    ensures r.ok <==> actual.Nil?
    ensures r.ok ==> r.trace == []
    ensures !r.ok ==> r.trace == Emit(level, Mismatch(Nil, actual))
  {
    Equals(level, Nil, actual)
  }

  /** The predeclared `string` type. */
  const StringType: Type := Type(String, "string")

  /** An optional value; `None` is Go's nil interface. */
  datatype Option<T> = None | Some(value: T)

  /** A non-nil Go `error`, seen through the text its `Error()` returns. */
  datatype ErrorValue = ErrorValue(message: string)

  /** The error is present and its message is `expected`. */
  function HasError(level: int, expected: string, actual: Option<ErrorValue>): (r: Outcome)
    ensures actual.None? ==> r == Fail(level, Mismatch(Str(StringType, expected), Nil))
    ensures actual.Some? ==> (r.ok <==> actual.value.message == expected)
    ensures r.ok ==> r.trace == []
    ensures actual.Some? && !r.ok ==>
      r.trace == Emit(level, Mismatch(Str(StringType, expected), Str(StringType, actual.value.message)))
  {
    if actual.None? then
      Fail(level, Mismatch(Str(StringType, expected), Nil))
    else
      Equals(level, Str(StringType, expected), Str(StringType, actual.value.message))
  }
}
