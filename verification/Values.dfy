/**
 The closed universe of wire types: unit, bool, the integer types, strings, vectors,
 `Option`, `Result` and tuples of two to ten elements, nested to any depth.
 */
module Values {
  import opened Wire
  import ZigZag

  /** The integer types; `isize` and `usize` are those of a 64-bit target. */
  datatype IntTy = I8 | I16 | I32 | I64 | Isize | U8 | U16 | U32 | U64 | Usize {
    /** The size of the type in bytes. */
    function Size(): (n: nat)
      ensures 1 <= n <= 8
    {
      match this
      case I8 | U8 => 1
      case I16 | U16 => 2
      case I32 | U32 => 4
      case I64 | U64 | Isize | Usize => 8
    }

    predicate Signed() {
      this == I8 || this == I16 || this == I32 || this == I64 || this == Isize
    }

    predicate Has(n: int) {
      match this
      case I8 => -0x80 <= n < 0x80
      case I16 => -0x8000 <= n < 0x8000
      case I32 => -0x8000_0000 <= n < 0x8000_0000
      case I64 | Isize => -0x8000_0000_0000_0000 <= n < 0x8000_0000_0000_0000
      case U8 => 0 <= n < 0x100
      case U16 => 0 <= n < 0x1_0000
      case U32 => 0 <= n < TWO32
      case U64 | Usize => 0 <= n < TWO64
    }
  }

  datatype Ty =
    | TUnit
    | TBool
    | TInt(num: IntTy)
    | TStr
    | TVecBool
    | TVec(elem: IntTy)
    | TOption(some: Ty)
    | TResult(ok: Ty)
    | TTuple(elems: seq<Ty>)

  /** A string is the UTF-8 bytes it owns. An error carries its `Display` string, which is
      all that crosses the wire. */
  datatype Value =
    | VUnit
    | VBool(b: bool)
    | VInt(n: int)
    | VStr(str: Bytes)
    | VVecBool(bools: seq<bool>)
    | VVec(ints: seq<int>)
    | VNone
    | VSome(some: Value)
    | VOk(ok: Value)
    | VErr(err: Bytes)
    | VTuple(elems: seq<Value>)

  predicate Typed(v: Value, ty: Ty)
    decreases ty, 0
  {
    match ty
    case TUnit => v == VUnit
    case TBool => v.VBool?
    case TInt(t) => v.VInt? && t.Has(v.n)
    case TStr => v.VStr? && Utf8(v.str)
    case TVecBool => v.VVecBool?
    case TVec(t) => v.VVec? && AllHave(t, v.ints)
    case TOption(e) => v.VNone? || (v.VSome? && Typed(v.some, e))
    case TResult(e) => (v.VErr? && Utf8(v.err)) || (v.VOk? && Typed(v.ok, e))
    case TTuple(es) => v.VTuple? && 2 <= |es| <= 10 && TypedAll(v.elems, es)
  }

  predicate TypedAll(vs: seq<Value>, es: seq<Ty>)
    decreases es, 1
  {
    |vs| == |es| && forall i :: 0 <= i < |es| ==> Typed(vs[i], es[i])
  }

  predicate AllHave(t: IntTy, ns: seq<int>) {
    forall i :: 0 <= i < |ns| ==> t.Has(ns[i])
  }

  // ----- UTF-8, as the table of well-formed byte sequences of the Unicode standard -----

  predicate Tail(b: Byte) {
    0x80 <= b < 0xC0
  }

  predicate Lead3(a: Byte, b: Byte) {
    || (a == 0xE0 && 0xA0 <= b < 0xC0)
    || (0xE1 <= a <= 0xEC && Tail(b))
    || (a == 0xED && 0x80 <= b < 0xA0)
    || (0xEE <= a <= 0xEF && Tail(b))
  }

  predicate Lead4(a: Byte, b: Byte) {
    || (a == 0xF0 && 0x90 <= b < 0xC0)
    || (0xF1 <= a <= 0xF3 && Tail(b))
    || (a == 0xF4 && 0x80 <= b < 0x90)
  }

  predicate Utf8(s: Bytes) {
    if s == [] then true
    else if s[0] < 0x80 then Utf8(s[1..])
    else if |s| >= 2 && 0xC2 <= s[0] <= 0xDF then Tail(s[1]) && Utf8(s[2..])
    else if |s| >= 3 && Lead3(s[0], s[1]) then Tail(s[2]) && Utf8(s[3..])
    else |s| >= 4 && Lead4(s[0], s[1]) && Tail(s[2]) && Tail(s[3]) && Utf8(s[4..])
  }
}
