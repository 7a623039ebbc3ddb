# cas_go_asserts assertion checker in Dafny

This project models the assertion helper of `cas_go_asserts`. An `Assert` holds a test
handle and a severity `level`. It offers three checks:

- `Equals(expected, actual)` is deep equality of two dynamically typed operands.
- `IsNil(actual)` checks that an operand is absent.
- `HasError(message, err)` compares an error's text with an expected message.

`Equals` tries its checks in a fixed order:

1. absence (`nil`);
2. supported kinds (booleans, every numeric kind up to `complex128`, strings, arrays, slices);
3. identity of the concrete types;
4. for arrays and slices, the lengths and then each element in turn, stopping at the first
   mismatch;
5. for everything else, plain value equality.

Each failure writes one report. Level 0 sends it to the test's error channel, level 1 to
its log, and any other level drops it.

Files:

- `reflection.dfy` has the runtime view of an operand. Go's `reflect` is replaced by a
  closed `Value` datatype carrying a `Type` (kind plus name).
- `sink.dfy` has the reports, the channels, severity gating (`Emit`) and the outcome of a
  check: its answer together with the entries it wrote.
- `asserts.dfy` has `Equals`, `CheckArray` (the length check), `CheckFrom` (the element
  loop), `IsNil` and `HasError`.
- `properties.dfy` has the lemmas: order of the checks, short-circuiting of the element
  loop, severity gating, and worked examples.

The main contract is on `Equals`. It succeeds exactly when the two operands are
structurally equal and contain nothing of a refused kind at any depth. A success writes
nothing. A failure writes exactly one entry at levels 0 and 1 and none at other levels.

Operands are assumed `WellTyped`: the shape of a value matches its type's kind. Go's type
system guarantees this for every value `reflect` can see. A kind is compared by its
position in `reflect.Kind` order, as the code does with `varKind <= reflect.Complex128`.
`uintptr` lies between `uint64` and `float32` in `reflect.Kind`, so the `<= Complex128`
test at assert.go:75 accepts it.

## Model

| member | source | states |
|---|---|---|
| Reflection.SupportedKinds | assert.go:74-81 | `IsSupported` (the model of `isSupported`, built on `IsArray`, the model of `isArray`) accepts a kind exactly when it is bool, one of the numeric kinds through complex128 (uintptr included), string, array or slice; Invalid is refused |
| Reflection.KindDecidesShape | assert.go:74-81 | for a well-typed operand, the kind tests pick out the value's shape: supported exactly when not a refused-kind value, array kind exactly when it is a sequence |
| Sink.Emit | assert.go:35-39 | a failure writes one entry to the error channel at level 0, one to the log at level 1, and nothing at any other level |
| Asserts.Equals | assert.go:105-138 | the answer is true exactly when the operands are structurally equal and contain no refused kind at any depth; a success writes nothing, a failure writes one entry on the level's channel when the level is audible |
| Asserts.CheckArray | assert.go:83-103 | two sequences of one type are equal exactly when their element lists are equal and contain no refused kind; same reporting discipline |
| Asserts.CheckFrom | assert.go:97-102 | the loop from index i succeeds exactly when every later pair is equal and comparable; same reporting discipline |
| Asserts.IsNil | assert.go:140-142 | succeeds exactly when the operand is absent, writing nothing then, and otherwise reports nil against the operand |
| Asserts.HasError | assert.go:144-150 | an absent error fails with a report of the message against nil; a present error passes exactly when its text is the expected message, writing nothing then, and otherwise reports the two strings |
| Properties.NilFirst | assert.go:106-111 | two absent operands are equal with nothing written; exactly one absent operand fails with a mismatch report whatever the other holds |
| Properties.UnsupportedBeforeType | assert.go:116-124 | an operand of a refused kind fails with the kinds report even when the types also differ |
| Properties.NoCoercion | assert.go:126-129 | operands of different concrete types fail with a mismatch report, whatever they hold |
| Properties.NoCoercionExamples | assert.go:126-129 | int32 and int64 holding the same number differ; an array and a slice with the same elements differ |
| Properties.ValueMismatch | assert.go:133-135 | two scalars or strings of one type holding different values fail with one mismatch report naming both operands |
| Properties.LengthBeforeElements | assert.go:87-95 | sequences of different lengths fail with the length report alone, whatever their elements |
| Properties.ElementWise | assert.go:97-102 | equal-length sequences of one type are equal exactly when every index pair is equal |
| Properties.LoopStopsAt | assert.go:97-101 | the element loop's outcome is that of the first failing element comparison |
| Properties.FirstMismatchDecides | assert.go:97-101 | comparing two sequences gives exactly the outcome of comparing their first mismatching elements, report included |
| Properties.LaterElementsIgnored | assert.go:97-101 | changing elements after the first mismatch, with lengths kept equal, changes neither the answer nor the report |
| Properties.EqualsRoutesBySeverity | assert.go:105-138 | at any level, the outcome is the level-0 answer with the level-0 report moved to that level's channel or dropped |
| Properties.CheckArrayRoutesBySeverity | assert.go:87-95 | the length check and element loop depend on the level only through the channel of their report |
| Properties.CheckFromRoutesBySeverity | assert.go:97-102 | the element loop depends on the level only through the channel of its report |
| Properties.OneReportPerFailure | assert.go:105-138 | at levels 0 and 1, a comparison fails exactly when it writes one entry and succeeds exactly when it writes none |
| Properties.EqualSlicesExample | assert.go:97-102 | the int slices [1,2,3] and [1,2,3] are equal and nothing is written |
| Properties.LastElementDiffersExample | assert.go:97-101 | [1,2,3] against [1,2,4] at level 0 writes exactly one error, naming the elements 3 and 4 |
| Properties.ShorterSliceExample | assert.go:87-95 | [1,2] against [1,2,3] at level 1 writes exactly one log line, naming the lengths 2 and 3 |

## Left out

- Message text is not modelled. The `fmt.Sprintf` formatting, the character diff of two strings and the choice between the diff layout and the typed layout in `logError` are left out. Reports are tagged records carrying the compared values, kinds or lengths.
- The `testing.T` sink is modelled as the list of entries a check writes, not as calls on a test object. Whether a hard failure stops the test belongs to the framework.
- A scalar payload is an integer standing for a class of values that Go's `==` finds equal (so `+0.0` and `-0.0` share one payload). NaN is the exception that is not modelled: Go finds it unequal to itself.
- Type identity is modelled as equality of a kind and a name. Go's identity of distinct types that print alike is not modelled.
- Array lengths are not part of the `Type` record. In Go, two arrays of one type always have the same length, so the length report can only arise there for slices.
- Element types of a sequence are not constrained. A `[]int` could hold non-`int` elements in the model, which only adds inputs that Go cannot build.
- Go's `error` is modelled by the text its `Error()` method returns. A typed nil pointer inside a non-nil error, whose `Error()` may panic, is not modelled.
- Self-referential slices (a `[]interface{}` containing itself) are not representable, since `Value` is an inductive datatype. Go's `Equals` does not terminate on them: it recurses through assert.go:98 and 132 until the stack overflows.
