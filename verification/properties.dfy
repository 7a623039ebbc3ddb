/** Properties of the assertion checker: the order of its checks, where the
    element loop stops, and how the severity level only routes reports. */
module Properties {
  import opened Reflection
  import opened Sink
  import opened Asserts

  // ---------------------------------------------------------------------
  // Order of the checks
  // ---------------------------------------------------------------------

  /** Two absent operands are equal and nothing is written; one absent
      operand is a mismatch, reported whatever the other one is. */
  lemma NilFirst(level: int, expected: Value, actual: Value)
    requires WellTyped(expected) && WellTyped(actual)
    ensures expected.Nil? && actual.Nil? ==> Equals(level, expected, actual) == Pass
    ensures expected.Nil? != actual.Nil? ==>
      Equals(level, expected, actual) == Fail(level, Mismatch(expected, actual))
  {
  }

  /** A refused kind on either side fails with the kinds report, even when
      the two types also differ: the kind check comes before type identity. */
  lemma UnsupportedBeforeType(level: int, expected: Value, actual: Value)
    requires WellTyped(expected) && WellTyped(actual)
    requires !expected.Nil? && !actual.Nil?
    requires expected.Opaque? || actual.Opaque?
    ensures Equals(level, expected, actual) ==
      Fail(level, UnsupportedKinds(expected.ty.kind, actual.ty.kind))
  {
  }

  /** Operands of different concrete types never compare equal, whatever
      they hold: there is no conversion between them. */
  lemma NoCoercion(level: int, expected: Value, actual: Value)
    requires WellTyped(expected) && WellTyped(actual)
    requires !expected.Nil? && !actual.Nil?
    requires !expected.Opaque? && !actual.Opaque?
    requires expected.ty != actual.ty
    ensures Equals(level, expected, actual) == Fail(level, Mismatch(expected, actual))
  {
  }

  /** An `int32` and an `int64` holding the same number differ, and so do an
      array and a slice holding the same elements. */
  lemma NoCoercionExamples(level: int, n: int, xs: seq<Value>)
    requires forall i :: 0 <= i < |xs| ==> WellTyped(xs[i])
    ensures !Equals(level, Scalar(Type(Int32, "int32"), n), Scalar(Type(Int64, "int64"), n)).ok
    ensures !Equals(level, List(Type(Array, "[3]int"), xs), List(Type(Slice, "[]int"), xs)).ok
  {
    NoCoercion(level, Scalar(Type(Int32, "int32"), n), Scalar(Type(Int64, "int64"), n));
  }

  /** Two scalars or strings of one type that hold different values fail
      with a mismatch report naming both operands. */
  lemma ValueMismatch(level: int, expected: Value, actual: Value)
    requires WellTyped(expected) && WellTyped(actual)
    requires (expected.Scalar? || expected.Str?) && !actual.Nil?
    requires expected.ty == actual.ty && expected != actual
    ensures Equals(level, expected, actual) == Fail(level, Mismatch(expected, actual))
  {
  }

  /** Arrays or slices of different lengths fail with the length report
      alone, without any element being compared. */
  lemma LengthBeforeElements(level: int, t: Type, xs: seq<Value>, ys: seq<Value>)
    requires WellTyped(List(t, xs)) && WellTyped(List(t, ys))
    requires |xs| != |ys|
    ensures Equals(level, List(t, xs), List(t, ys)) == Fail(level, LengthMismatch(|xs|, |ys|))
  {
  }

  // ---------------------------------------------------------------------
  // The element loop
  // ---------------------------------------------------------------------

  /** Two sequences of one type and length are equal exactly when every
      pair of elements at the same index is. */
  lemma ElementWise(level: int, t: Type, xs: seq<Value>, ys: seq<Value>)
    requires WellTyped(List(t, xs)) && WellTyped(List(t, ys))
    requires |xs| == |ys|
    ensures Equals(level, List(t, xs), List(t, ys)).ok <==>
      forall j :: 0 <= j < |xs| ==> Equals(level, xs[j], ys[j]).ok
  {
  }

  /** Two well-typed arrays or slices of the same length: the operands the
      element loop runs over. */
  predicate PairedLists(expected: Value, actual: Value) {
    && expected.List? && actual.List?
    && WellTyped(expected) && WellTyped(actual)
    && |expected.elems| == |actual.elems|
  }

  /** The element loop started at a failing index ends there, with that
      pair's outcome. */
  lemma LoopEndsAtFailure(level: int, expected: Value, actual: Value, k: nat)
    requires PairedLists(expected, actual)
    requires k < |expected.elems|
    requires !Equals(level, expected.elems[k], actual.elems[k]).ok
    ensures CheckFrom(level, expected, actual, k) == Equals(level, expected.elems[k], actual.elems[k])
  {
  }

  /** A passing pair at index `i` hands the loop over to index `i + 1`. */
  lemma LoopPassesOver(level: int, expected: Value, actual: Value, i: nat, k: nat)
    requires PairedLists(expected, actual)
    requires i < k < |expected.elems|
    requires Equals(level, expected.elems[i], actual.elems[i]).ok
    requires CheckFrom(level, expected, actual, i + 1) == Equals(level, expected.elems[k], actual.elems[k])
    ensures CheckFrom(level, expected, actual, i) == Equals(level, expected.elems[k], actual.elems[k])
  {
  }

  /** From index `i` up to the first failing index `k`, the loop's outcome
      is that element comparison's outcome. */
  lemma {:induction false} LoopStopsAt(level: int, expected: Value, actual: Value, i: nat, k: nat)
    requires PairedLists(expected, actual)
    requires i <= k < |expected.elems|
    requires forall j :: i <= j < k ==> Equals(level, expected.elems[j], actual.elems[j]).ok
    requires !Equals(level, expected.elems[k], actual.elems[k]).ok
    ensures CheckFrom(level, expected, actual, i) ==
      Equals(level, expected.elems[k], actual.elems[k])
    decreases k - i
  {
    if i == k {
      LoopEndsAtFailure(level, expected, actual, k);
    } else {
      LoopStopsAt(level, expected, actual, i + 1, k);
      LoopPassesOver(level, expected, actual, i, k);
    }
  }

  /** The first mismatching index decides: comparing the sequences gives
      exactly what comparing their elements at that index gives, report
      included. */
  lemma {:induction false} FirstMismatchDecides(level: int, t: Type, xs: seq<Value>, ys: seq<Value>, k: nat)
    requires WellTyped(List(t, xs)) && WellTyped(List(t, ys))
    requires IsArray(t.kind) && |xs| == |ys| && k < |xs|
    requires forall j :: 0 <= j < k ==> Equals(level, xs[j], ys[j]).ok
    requires !Equals(level, xs[k], ys[k]).ok
    ensures Equals(level, List(t, xs), List(t, ys)) == Equals(level, xs[k], ys[k])
  {
    LoopStopsAt(level, List(t, xs), List(t, ys), 0, k);
  }

  /** Elements after the first mismatch are never examined: replacing them
      (keeping the lengths equal) changes neither the answer nor the report. */
  lemma {:induction false} LaterElementsIgnored(level: int, t: Type, xs: seq<Value>, ys: seq<Value>,
                                               xs': seq<Value>, ys': seq<Value>, k: nat)
    requires WellTyped(List(t, xs)) && WellTyped(List(t, ys))
    requires WellTyped(List(t, xs')) && WellTyped(List(t, ys'))
    requires IsArray(t.kind) && |xs| == |ys| && |xs'| == |ys'| && k < |xs| && k < |xs'|
    requires xs[..k + 1] == xs'[..k + 1] && ys[..k + 1] == ys'[..k + 1]
    requires forall j :: 0 <= j < k ==> Equals(level, xs[j], ys[j]).ok
    requires !Equals(level, xs[k], ys[k]).ok
    ensures Equals(level, List(t, xs), List(t, ys)) == Equals(level, List(t, xs'), List(t, ys'))
  {
    assert forall j :: 0 <= j <= k ==> xs[j] == xs[..k + 1][j] == xs'[j];
    assert forall j :: 0 <= j <= k ==> ys[j] == ys[..k + 1][j] == ys'[j];
    FirstMismatchDecides(level, t, xs, ys, k);
    FirstMismatchDecides(level, t, xs', ys', k);
  }

  // ---------------------------------------------------------------------
  // Severity
  // ---------------------------------------------------------------------

  /** The level never changes the answer or the report: the outcome at any
      level is the level-0 outcome with its report sent to that level's
      channel, or dropped. */
  lemma {:induction false} EqualsRoutesBySeverity(level: int, expected: Value, actual: Value)
    requires WellTyped(expected) && WellTyped(actual)
    ensures Equals(level, expected, actual) ==
      Outcome(Equals(0, expected, actual).ok, Reroute(level, Equals(0, expected, actual).trace))
    decreases expected, 2, 0
  {
    if (expected.Nil? || actual.Nil?) && expected != actual {
      RerouteFail(level, Mismatch(expected, actual));
    } else if expected.Nil? && actual.Nil? {
    } else if !IsSupported(expected.ty.kind) || !IsSupported(actual.ty.kind) {
      RerouteFail(level, UnsupportedKinds(expected.ty.kind, actual.ty.kind));
    } else if expected.ty != actual.ty {
      RerouteFail(level, Mismatch(expected, actual));
    } else if IsArray(expected.ty.kind) && IsArray(actual.ty.kind) {
      CheckArrayRoutesBySeverity(level, expected, actual);
    } else if expected != actual {
      RerouteFail(level, Mismatch(expected, actual));
    }
  }

  lemma {:induction false} CheckArrayRoutesBySeverity(level: int, expected: Value, actual: Value)
    requires expected.List? && actual.List?
    requires WellTyped(expected) && WellTyped(actual)
    ensures CheckArray(level, expected, actual) ==
      Outcome(CheckArray(0, expected, actual).ok, Reroute(level, CheckArray(0, expected, actual).trace))
    decreases expected, 1, 0
  {
    if |expected.elems| != |actual.elems| {
      RerouteFail(level, LengthMismatch(|expected.elems|, |actual.elems|));
    } else {
      CheckFromRoutesBySeverity(level, expected, actual, 0);
    }
  }

  lemma {:induction false} CheckFromRoutesBySeverity(level: int, expected: Value, actual: Value, i: nat)
    requires expected.List? && actual.List?
    requires WellTyped(expected) && WellTyped(actual)
    requires |expected.elems| == |actual.elems| && i <= |expected.elems|
    ensures CheckFrom(level, expected, actual, i) ==
      Outcome(CheckFrom(0, expected, actual, i).ok, Reroute(level, CheckFrom(0, expected, actual, i).trace))
    decreases expected, 0, |expected.elems| - i
  {
    if i < |expected.elems| {
      EqualsRoutesBySeverity(level, expected.elems[i], actual.elems[i]);
      if Equals(0, expected.elems[i], actual.elems[i]).ok {
        CheckFromRoutesBySeverity(level, expected, actual, i + 1);
      }
    }
  }

  /** At the audible levels a comparison fails exactly when it writes one
      entry, and succeeds exactly when it writes none. */
  lemma OneReportPerFailure(level: int, expected: Value, actual: Value)
    requires WellTyped(expected) && WellTyped(actual)
    requires Audible(level)
    ensures !Equals(level, expected, actual).ok <==> |Equals(level, expected, actual).trace| == 1
    ensures Equals(level, expected, actual).ok <==> Equals(level, expected, actual).trace == []
  {
  }

  // ---------------------------------------------------------------------
  // Examples
  // ---------------------------------------------------------------------

  const IntType: Type := Type(Int, "int")
  const IntSlice: Type := Type(Slice, "[]int")

  /** A Go `int` operand. */
  function IntValue(n: int): (v: Value)
    ensures WellTyped(v) && Comparable(v)
  {
    Scalar(IntType, n)
  }

  /** `[1,2,3]` equals itself, and nothing is written. */
  lemma EqualSlicesExample()
    ensures Equals(0, List(IntSlice, [IntValue(1), IntValue(2), IntValue(3)]),
                      List(IntSlice, [IntValue(1), IntValue(2), IntValue(3)])) == Pass
  {
  }

  /** `[1,2,3]` against `[1,2,4]` at level 0 writes one error naming the
      third elements. */
  lemma LastElementDiffersExample()
    ensures Equals(0, List(IntSlice, [IntValue(1), IntValue(2), IntValue(3)]),
                      List(IntSlice, [IntValue(1), IntValue(2), IntValue(4)])) ==
      Outcome(false, [Entry(Error, Mismatch(IntValue(3), IntValue(4)))])
  {
    var xs, ys := [IntValue(1), IntValue(2), IntValue(3)], [IntValue(1), IntValue(2), IntValue(4)];
    ValueMismatch(0, IntValue(3), IntValue(4));
    assert Emit(0, Mismatch(IntValue(3), IntValue(4))) == [Entry(Error, Mismatch(IntValue(3), IntValue(4)))];
    assert xs[0] == ys[0] && xs[1] == ys[1];
    FirstMismatchDecides(0, IntSlice, xs, ys, 2);
  }

  /** `[1,2]` against `[1,2,3]` at level 1 logs only the two lengths. */
  lemma ShorterSliceExample()
    ensures Equals(1, List(IntSlice, [IntValue(1), IntValue(2)]),
                      List(IntSlice, [IntValue(1), IntValue(2), IntValue(3)])) ==
      Outcome(false, [Entry(Log, LengthMismatch(2, 3))])
  {
    LengthBeforeElements(1, IntSlice, [IntValue(1), IntValue(2)], [IntValue(1), IntValue(2), IntValue(3)]);
  }
}
