/** The runtime view of a compared value.

    Go's `reflect` package classifies every dynamic value by a `Kind` and
    identifies it by a `Type`.  This module replaces that introspection by a
    closed datatype that is built once, at the boundary: an operand is either
    the untyped `nil` or a value carrying its concrete type.
 */
module Reflection {

  /** The kinds of `reflect.Kind`, in declaration order. */
  datatype Kind =
    | Invalid | Bool
    | Int | Int8 | Int16 | Int32 | Int64
    | Uint | Uint8 | Uint16 | Uint32 | Uint64 | Uintptr
    | Float32 | Float64 | Complex64 | Complex128
    | Array | Chan | Func | Interface | Map | Ptr | Slice | String | Struct
    | UnsafePointer

  /** The numeric value of a kind constant; the checker compares kinds by it. */
  function Ord(k: Kind): nat {
    match k
    case Invalid => 0
    case Bool => 1
    case Int => 2
    case Int8 => 3
    case Int16 => 4
    case Int32 => 5
    case Int64 => 6
    case Uint => 7
    case Uint8 => 8
    case Uint16 => 9
    case Uint32 => 10
    case Uint64 => 11
    case Uintptr => 12
    case Float32 => 13
    case Float64 => 14
    case Complex64 => 15
    case Complex128 => 16
    case Array => 17
    case Chan => 18
    case Func => 19
    case Interface => 20
    case Map => 21
    case Ptr => 22
    case Slice => 23
    case String => 24
    case Struct => 25
    case UnsafePointer => 26
  }

  /** Kinds that are compared element by element. */
  predicate IsArray(k: Kind) {
    k == Array || k == Slice
  }

  /** Kinds the checker agrees to compare: every kind up to `Complex128`
      (booleans and all numeric kinds), strings, arrays and slices. */
  predicate IsSupported(k: Kind) {
    k != Invalid && (Ord(k) <= Ord(Complex128) || k == String || IsArray(k))
  }

  /** Kinds whose values are single scalars: booleans and numbers. */
  predicate IsScalar(k: Kind) {
    k != Invalid && Ord(k) <= Ord(Complex128)
  }

  /** A concrete runtime type.  Two operands have the same type exactly when
      these records are equal; `name` tells apart distinct types of one kind
      (`int` and a named `type Celsius int`, `[]int` and `[]string`). */
  datatype Type = Type(kind: Kind, name: string)

  /** A dynamically typed operand.  A scalar payload (boolean, integer,
      floating-point or complex number) stands for the class of values that
      Go's `==` finds equal: only its equality matters.  `Opaque` stands for
      a value of any kind the checker refuses (struct, map, pointer,
      function, channel, ...), with its content. */
  datatype Value =
    | Nil
    | Scalar(ty: Type, payload: int)
    | Str(ty: Type, text: string)
    | List(ty: Type, elems: seq<Value>)
    | Opaque(ty: Type, content: int)

  /** The shape of a value agrees with the kind of its type, as Go's type
      system guarantees for every value `reflect` can see. */
  predicate WellTyped(v: Value) {
    || v.Nil?
    || (v.Scalar? && IsScalar(v.ty.kind))
    || (v.Str? && v.ty.kind == String)
    || (v.List? && IsArray(v.ty.kind) && forall i :: 0 <= i < |v.elems| ==> WellTyped(v.elems[i]))
    || (v.Opaque? && v.ty.kind != Invalid && v.ty.kind != Interface && !IsSupported(v.ty.kind))
  }

  /** No part of `v`, at any depth, is of a refused kind. */
  predicate Comparable(v: Value) {
    match v
    case Nil => true
    case Scalar(_, _) => true
    case Str(_, _) => true
    case List(_, xs) => forall i :: 0 <= i < |xs| ==> Comparable(xs[i])
    case Opaque(_, _) => false
  }

  /** The kind of a well-typed non-nil value decides which constructor
      carries it. */
  lemma KindDecidesShape(v: Value)
    requires WellTyped(v) && !v.Nil?
    ensures IsSupported(v.ty.kind) <==> !v.Opaque?
    ensures IsArray(v.ty.kind) <==> v.List?
  {
  }

  /** The supported kinds, listed: `Uintptr` is among them because it lies
      below `Complex128`, and `Invalid` is not. */
  lemma SupportedKinds(k: Kind)
    ensures IsSupported(k) <==>
      k in {Bool, Int, Int8, Int16, Int32, Int64, Uint, Uint8, Uint16, Uint32,
            Uint64, Uintptr, Float32, Float64, Complex64, Complex128,
            Array, Slice, String}
  {
  }
}
