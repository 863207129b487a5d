/**
 The protobuf codec: every value is a protobuf message. Scalars are wrapper messages whose
 field 1 is left out at its default, vectors are packed fields, `Option`, `Result` and
 tuples carry the encodings of their parts in length-delimited fields.

 `Encoding` and `EncodedLen` follow the encoders and the length functions separately;
 `Decode` accepts any bytes.
 */
module ProstCodec {
  import opened Wire
  import opened Values
  import opened CommonCodec
  import ZigZag

  // ----- Vector elements as varints -----

  /** The width of the protobuf type an integer travels as. */
  function WireBits(t: IntTy): (bits: nat)
    ensures bits >= 1
  {
    if t.Size() <= 4 then 32 else 64
  }

  /** The varint of a vector element: ZigZag for the signed types. */
  function ToVarint(t: IntTy, n: int): (v: nat)
    requires t.Has(n)
  {
    if t.Signed() then ZigZag.Encode(n, WireBits(t)) else n
  }

  /** The element that a packed varint stands for, before the narrowing conversion. */
  function FromVarint(t: IntTy, v: nat): int {
    var low := v % ZigZag.Pow2(WireBits(t));
    if t.Signed() then ZigZag.Decode(low, WireBits(t)) else low
  }

  lemma {:induction false} WidthsAgree(t: IntTy, n: int)
    requires t.Has(n)
    ensures t.Signed() ==> ZigZag.Fits(n, WireBits(t))
    ensures !t.Signed() ==> 0 <= n < ZigZag.Pow2(WireBits(t))
    ensures ZigZag.Pow2(WireBits(t)) <= TWO64
  {
    ZigZag.Powers();
  }

  lemma {:induction false} ElementRoundTrip(t: IntTy, n: int)
    requires t.Has(n)
    ensures ToVarint(t, n) < TWO64 && FromVarint(t, ToVarint(t, n)) == n
  {
    WidthsAgree(t, n);
    var bits := WireBits(t);
    if t.Signed() {
      ZigZag.Bijection(n, 0, bits);
    }
    ZigZag.ModUnique(ToVarint(t, n), ZigZag.Pow2(bits), 0, ToVarint(t, n));
  }

  function ToVarints(t: IntTy, ns: seq<int>): (vs: seq<nat>)
    requires AllHave(t, ns)
  {
    seq(|ns|, i requires 0 <= i < |ns| => ToVarint(t, ns[i]))
  }

  /** Narrows every element, failing on the first that is out of range. */
  function FromVarints(t: IntTy, vs: seq<nat>): (r: Option<seq<int>>)
    ensures r.Some? ==> AllHave(t, r.value)
  {
    if vs == [] then Some([])
    else
      var n := FromVarint(t, vs[0]);
      var tail := FromVarints(t, vs[1..]);
      if !t.Has(n) || tail.None? then None else Some([n] + tail.value)
  }

  lemma {:induction false} FromVarintsStep(t: IntTy, v: nat, vs: seq<nat>, ns: seq<int>)
    requires t.Has(FromVarint(t, v)) && FromVarints(t, vs) == Some(ns)
    ensures FromVarints(t, [v] + vs) == Some([FromVarint(t, v)] + ns)
  {
    assert ([v] + vs)[1..] == vs;
  }

  lemma {:induction false} ElementsRoundTrip(t: IntTy, ns: seq<int>)
    requires AllHave(t, ns)
    ensures FromVarints(t, ToVarints(t, ns)) == Some(ns)
    ensures forall i :: 0 <= i < |ns| ==> ToVarints(t, ns)[i] < TWO64
  {
    hide FromVarint, ToVarint;
    if ns != [] {
      var v, tail := ToVarint(t, ns[0]), ToVarints(t, ns[1..]);
      ElementRoundTrip(t, ns[0]);
      ElementsRoundTrip(t, ns[1..]);
      assert ToVarints(t, ns) == [v] + tail;
      FromVarintsStep(t, v, tail, ns[1..]);
      assert [ns[0]] + ns[1..] == ns;
    }
  }

  function BoolVarints(bs: seq<bool>): (vs: seq<nat>) {
    seq(|bs|, i requires 0 <= i < |bs| => if bs[i] then 1 else 0)
  }

  function VarintBools(vs: seq<nat>): (bs: seq<bool>) {
    seq(|vs|, i requires 0 <= i < |vs| => vs[i] != 0)
  }

  // ----- Packed fields -----

  function Packed(vs: seq<nat>): (s: Bytes)
    ensures |s| == PackedLen(vs)
  {
    if vs == [] then [] else Varint(vs[0]) + Packed(vs[1..])
  }

  function PackedLen(vs: seq<nat>): nat {
    if vs == [] then 0 else VarintLen(vs[0]) + PackedLen(vs[1..])
  }

  function ReadPacked(s: Bytes): (r: Option<seq<nat>>)
    decreases |s|
  {
    if s == [] then Some([])
    else
      var v := ReadVarint(s);
      if v.NoNumber? then None
      else
        var tail := ReadPacked(s[v.used..]);
        if tail.None? then None else Some([v.value] + tail.value)
  }

  /** Reading packed varints back returns a list of any length and order unchanged. */
  lemma {:induction false} PackedRoundTrip(vs: seq<nat>)
    requires forall i :: 0 <= i < |vs| ==> vs[i] < TWO64
    ensures ReadPacked(Packed(vs)) == Some(vs)
  {
    if vs != [] {
      VarintRoundTrip(vs[0], Packed(vs[1..]));
      var s := Packed(vs);
      assert s[VarintLen(vs[0])..] == Packed(vs[1..]);
      PackedRoundTrip(vs[1..]);
      assert [vs[0]] + vs[1..] == vs;
    }
  }

  function PackedField(vs: seq<nat>): Bytes {
    if vs == [] then [] else LenRecord(1, PackedLen(vs), Packed(vs))
  }

  function PackedFieldLen(vs: seq<nat>): nat {
    if vs == [] then 0 else LenRecordLen(PackedLen(vs))
  }

  /** The elements of repeated field 1; packed and single occurrences may be mixed. */
  function Repeated(fs: seq<Field>): (r: Option<seq<nat>>) {
    if fs == [] then Some([])
    else
      var tail := Repeated(fs[1..]);
      if tail.None? then None
      else if fs[0].num != 1 then tail
      else
        match fs[0]
        case VarintField(_, v) => Some([v] + tail.value)
        case LenField(_, p) =>
          var vs := ReadPacked(p.data);
          if vs.None? then None else Some(vs.value + tail.value)
        case _ => None
  }

  // ----- Encoding -----

  /** The 64-bit pattern of a number: negative int32 and int64 varints are sign-extended. */
  function Pattern64(n: int): nat
    requires -0x8000_0000_0000_0000 <= n < TWO64
  {
    if n >= 0 then n else n + TWO64
  }

  function BytesField(s: Bytes): Bytes {
    if s == [] then [] else LenRecord(1, |s|, s)
  }

  /** The bytes that `encode` appends. */
  function Encoding(v: Value, ty: Ty): (s: Bytes)
    requires Typed(v, ty)
    decreases ty, 0
  {
    match ty
    case TUnit => []
    case TBool => if v.b then VarintRecord(1) else []
    case TInt(t) => if v.n == 0 then [] else VarintRecord(Pattern64(v.n))
    case TStr => BytesField(v.str)
    case TVecBool => PackedField(BoolVarints(v.bools))
    case TVec(t) => if t == U8 then BytesField(v.ints) else PackedField(ToVarints(t, v.ints))
    case TOption(e) =>
      if v.VNone? then [] else LenRecord(1, EncodedLen(v.some, e), Encoding(v.some, e))
    case TResult(e) =>
      if v.VOk? then LenRecord(1, EncodedLen(v.ok, e), Encoding(v.ok, e))
      else LenRecord(2, |v.err|, v.err)
    case TTuple(es) => EncodingFrom(v.elems, es, 0)
  }

  /** The tuple elements from the `k`-th on; element `i` is field `i + 1`. */
  function EncodingFrom(vs: seq<Value>, es: seq<Ty>, k: nat): (s: Bytes)
    requires TypedAll(vs, es) && k <= |es| <= 10
    decreases es, |es| - k
  {
    if k == |es| then []
    else LenRecord(k + 1, EncodedLen(vs[k], es[k]), Encoding(vs[k], es[k])) + EncodingFrom(vs, es, k + 1)
  }

  /** The length functions, which never look at an encoding. */
  function EncodedLen(v: Value, ty: Ty): nat
    requires Typed(v, ty)
    decreases ty, 0
  {
    match ty
    case TUnit => 0
    case TBool => if v.b then 1 + VarintLen(1) else 0
    case TInt(t) => if v.n == 0 then 0 else 1 + VarintLen(Pattern64(v.n))
    case TStr => if v.str == [] then 0 else LenRecordLen(|v.str|)
    case TVecBool => PackedFieldLen(BoolVarints(v.bools))
    case TVec(t) =>
      if t == U8 then if v.ints == [] then 0 else LenRecordLen(|v.ints|)
      else PackedFieldLen(ToVarints(t, v.ints))
    case TOption(e) => if v.VNone? then 0 else LenRecordLen(EncodedLen(v.some, e))
    case TResult(e) => LenRecordLen(if v.VOk? then EncodedLen(v.ok, e) else |v.err|)
    case TTuple(es) => EncodedLenFrom(v.elems, es, 0)
  }

  function EncodedLenFrom(vs: seq<Value>, es: seq<Ty>, k: nat): nat
    requires TypedAll(vs, es) && k <= |es| <= 10
    decreases es, |es| - k
  {
    if k == |es| then 0
    else LenRecordLen(EncodedLen(vs[k], es[k])) + EncodedLenFrom(vs, es, k + 1)
  }

  /** Every length function is exact, so every length prefix is right. */
  lemma {:induction false} LengthExact(v: Value, ty: Ty)
    requires Typed(v, ty)
    ensures |Encoding(v, ty)| == EncodedLen(v, ty)
    decreases ty, 0
  {
    match ty
    case TOption(e) => if v.VSome? { LengthExact(v.some, e); }
    case TResult(e) => if v.VOk? { LengthExact(v.ok, e); }
    case TTuple(es) => LengthExactFrom(v.elems, es, 0);
    case _ =>
  }

  lemma {:induction false} LengthExactFrom(vs: seq<Value>, es: seq<Ty>, k: nat)
    requires TypedAll(vs, es) && k <= |es| <= 10
    ensures |EncodingFrom(vs, es, k)| == EncodedLenFrom(vs, es, k)
    decreases es, |es| - k
  {
    if k < |es| {
      LengthExact(vs[k], es[k]);
      LengthExactFrom(vs, es, k + 1);
    }
  }

  // ----- Decoding -----

  /** The value of scalar field 1: the last occurrence wins, absent means zero, another wire
      type is an error. */
  function Scalar(fs: seq<Field>, sofar: nat := 0): (r: Option<nat>)
    decreases fs
  {
    if fs == [] then Some(sofar)
    else if fs[0].num != 1 then Scalar(fs[1..], sofar)
    else if fs[0].VarintField? then Scalar(fs[1..], fs[0].value)
    else None
  }

  /** String field 1: as `BytesOf`, and every occurrence must be UTF-8. */
  function StringOf(fs: seq<Field>, sofar: Bytes := []): (r: Option<Bytes>)
    requires Utf8(sofar)
    ensures r.Some? ==> Utf8(r.value)
    decreases fs
  {
    if fs == [] then Some(sofar)
    else if fs[0].num > 1 then StringOf(fs[1..], sofar)
    else if !fs[0].LenField? || !Utf8(fs[0].payload.data) then None
    else StringOf(fs[1..], fs[0].payload.data)
  }

  /** A scalar varint as the wire type the integer is declared with: the low bits, signed for
      the signed types. */
  function Narrow(t: IntTy, v: nat): int {
    var low := v % ZigZag.Pow2(WireBits(t));
    if t.Signed() then ZigZag.FromPattern(low, WireBits(t)) else low
  }

  function Decode(s: Slice, ty: Ty): (r: Option<Value>)
    decreases ty, 1
  {
    var fields := ReadFields(s);
    if fields.None? then None else DecodeFields(fields.value, ty)
  }

  function DecodeFields(fs: seq<Field>, ty: Ty): (r: Option<Value>)
    decreases ty, 0
  {
    match ty
    case TUnit => Some(VUnit)
    case TBool =>
      var v := Scalar(fs);
      if v.None? then None else Some(VBool(v.value != 0))
    case TInt(t) =>
      var v := Scalar(fs);
      if v.None? || !t.Has(Narrow(t, v.value)) then None else Some(VInt(Narrow(t, v.value)))
    case TStr =>
      var str := StringOf(fs);
      if str.None? then None else Some(VStr(str.value))
    case TVecBool =>
      var vs := Repeated(fs);
      if vs.None? then None else Some(VVecBool(VarintBools(vs.value)))
    case TVec(t) =>
      if t == U8 then
        var b := BytesOf(fs, 1, 1);
        if b.None? then None
        else Some(VVec(if b.value.None? then [] else b.value.value.data))
      else
        var vs := Repeated(fs);
        if vs.None? then None
        else
          var ns := FromVarints(t, vs.value);
          if ns.None? then None else Some(VVec(ns.value))
    case TOption(e) =>
      var b := BytesOf(fs, 1, 1);
      if b.None? then None
      else if b.value.None? then Some(VNone)
      else
        var v := Decode(b.value.value, e);
        if v.None? then None else Some(VSome(v.value))
    case TResult(e) =>
      var f := OneOf(fs);
      if f.None? || f.value.None? then None
      else if f.value.value.num != 2 then
        var v := Decode(f.value.value.payload, e);
        if v.None? then None else Some(VOk(v.value))
      else Some(VErr(f.value.value.payload.data))
    case TTuple(es) =>
      var vs := DecodeFrom(fs, es, 0);
      if vs.None? || !(2 <= |es| <= 10) then None else Some(VTuple(vs.value))
  }

  function DecodeFrom(fs: seq<Field>, es: seq<Ty>, k: nat): (r: Option<seq<Value>>)
    requires k <= |es|
    decreases es, |es| - k
  {
    if k == |es| then Some([])
    else
      var b := BytesOf(fs, k + 1, 10);
      if b.None? || b.value.None? then None
      else
        var v := Decode(b.value.value, es[k]);
        if v.None? then None
        else
          var tail := DecodeFrom(fs, es, k + 1);
          if tail.None? then None else Some([v.value] + tail.value)
  }

  // ----- Round trip -----

  /** A 64-bit word is a whole number of wire words. */
  lemma {:induction false} WireWords(bits: nat) returns (words: nat)
    requires bits == 32 || bits == 64
    ensures words >= 1 && ZigZag.Pow2(bits) * words == TWO64
  {
    ZigZag.Powers();
    words := if bits == 32 then TWO32 else 1;
  }

  lemma {:induction false} LowBits(n: int, p: int, words: nat)
    requires words >= 1 && p * words == TWO64 && -p <= n < p
    requires -0x8000_0000_0000_0000 <= n
    ensures Pattern64(n) % p == if n >= 0 then n else n + p
  {
    if n >= 0 {
      ZigZag.ModUnique(n, p, 0, n);
    } else {
      assert n + TWO64 == p * (words - 1) + (n + p);
      ZigZag.ModUnique(n + TWO64, p, words - 1, n + p);
    }
  }

  lemma {:induction false} ScalarRoundTrip(t: IntTy, n: int)
    requires t.Has(n)
    ensures Narrow(t, Pattern64(n)) == n && Narrow(t, 0) == 0
  {
    hide ZigZag.Pow2, Pattern64;
    WidthsAgree(t, n);
    ZigZag.Doubles(WireBits(t));
    var words := WireWords(WireBits(t));
    LowBits(n, ZigZag.Pow2(WireBits(t)), words);
    LowBits(0, ZigZag.Pow2(WireBits(t)), words);
  }

  lemma {:induction false} BoolsRoundTrip(bs: seq<bool>)
    ensures VarintBools(BoolVarints(bs)) == bs
    ensures forall i :: 0 <= i < |bs| ==> BoolVarints(bs)[i] < TWO64
  {
  }

  lemma {:induction false} PackedFieldRoundTrip(addr: nat, vs: seq<nat>)
    requires PackedLen(vs) < TWO64 && forall i :: 0 <= i < |vs| ==> vs[i] < TWO64
    ensures var fs := ReadFields(Slice(addr, PackedField(vs)));
            fs.Some? && Repeated(fs.value) == Some(vs)
  {
    if vs != [] {
      ReadOneRecord(addr, 1, Packed(vs));
      PackedRoundTrip(vs);
      var f := LenField(1, Slice(addr + PayloadOffset(PackedLen(vs)), Packed(vs)));
      assert Repeated([f]) == Some(vs + []);
      assert vs + [] == vs;
    }
  }

  // What the field scanners make of a message with one field.

  lemma {:induction false} OneField(v: nat, p: Slice)
    ensures Scalar([VarintField(1, v)]) == Some(v)
    ensures StringOf([LenField(1, p)]) == if Utf8(p.data) then Some(p.data) else None
  {
  }

  lemma {:induction false} DecodeOf(s: Slice, fs: seq<Field>, ty: Ty)
    requires ReadFields(s) == Some(fs)
    ensures Decode(s, ty) == DecodeFields(fs, ty)
  {
  }

  lemma {:induction false} IntRoundTrip(t: IntTy, n: int, addr: nat)
    requires t.Has(n)
    ensures Decode(Slice(addr, Encoding(VInt(n), TInt(t))), TInt(t)) == Some(VInt(n))
  {
    var s := Slice(addr, Encoding(VInt(n), TInt(t)));
    ScalarRoundTrip(t, n);
    if n == 0 {
      DecodeOf(s, [], TInt(t));
    } else {
      var v := Pattern64(n);
      ReadVarintRecord(addr, v);
      OneField(v, s);
      DecodeOf(s, [VarintField(1, v)], TInt(t));
    }
  }

  lemma {:induction false} VecRoundTrip(t: IntTy, ns: seq<int>, addr: nat)
    requires AllHave(t, ns) && EncodedLen(VVec(ns), TVec(t)) < TWO64
    ensures Decode(Slice(addr, Encoding(VVec(ns), TVec(t))), TVec(t)) == Some(VVec(ns))
  {
    hide ReadFields, Repeated, BytesOf, FromVarints;
    var s := Slice(addr, Encoding(VVec(ns), TVec(t)));
    if t != U8 {
      ElementsRoundTrip(t, ns);
      PackedFieldRoundTrip(addr, ToVarints(t, ns));
      DecodeOf(s, ReadFields(s).value, TVec(t));
    } else if ns == [] {
      ReadNothing(addr);
      NoBytes();
      DecodeOf(s, [], TVec(t));
    } else {
      var p := Slice(addr + PayloadOffset(|ns|), ns);
      ReadOneRecord(addr, 1, ns);
      OneBytes(p);
      DecodeOf(s, [LenField(1, p)], TVec(t));
    }
  }

  lemma {:induction false} StrRoundTrip(str: Bytes, addr: nat)
    requires Utf8(str) && EncodedLen(VStr(str), TStr) < TWO64
    ensures Decode(Slice(addr, Encoding(VStr(str), TStr)), TStr) == Some(VStr(str))
  {
    var s := Slice(addr, Encoding(VStr(str), TStr));
    if str == [] {
      DecodeOf(s, [], TStr);
    } else {
      var p := Slice(addr + PayloadOffset(|str|), str);
      ReadOneRecord(addr, 1, str);
      OneField(0, p);
      DecodeOf(s, [LenField(1, p)], TStr);
    }
  }

  lemma {:induction false} BoolRoundTrip(b: bool, addr: nat)
    ensures Decode(Slice(addr, Encoding(VBool(b), TBool)), TBool) == Some(VBool(b))
  {
    var s := Slice(addr, Encoding(VBool(b), TBool));
    if b {
      ReadVarintRecord(addr, 1);
      OneField(1, s);
      DecodeOf(s, [VarintField(1, 1)], TBool);
    } else {
      DecodeOf(s, [], TBool);
    }
  }

  lemma {:induction false} VecBoolRoundTrip(bs: seq<bool>, addr: nat)
    requires EncodedLen(VVecBool(bs), TVecBool) < TWO64
    ensures Decode(Slice(addr, Encoding(VVecBool(bs), TVecBool)), TVecBool) == Some(VVecBool(bs))
  {
    var s := Slice(addr, Encoding(VVecBool(bs), TVecBool));
    BoolsRoundTrip(bs);
    PackedFieldRoundTrip(addr, BoolVarints(bs));
    DecodeOf(s, ReadFields(s).value, TVecBool);
  }

  // ----- Tuples -----

  /** The encodings of the elements of a tuple. */
  function Parts(vs: seq<Value>, es: seq<Ty>): (ps: seq<Bytes>)
    requires TypedAll(vs, es)
    ensures |ps| == |es|
  {
    seq(|es|, i requires 0 <= i < |es| => Encoding(vs[i], es[i]))
  }

  lemma {:induction false} TupleIsRecords(vs: seq<Value>, es: seq<Ty>, k: nat)
    requires TypedAll(vs, es) && k <= |es| <= 10
    ensures EncodingFrom(vs, es, k) == Records(Parts(vs, es), k)
    ensures EncodedLenFrom(vs, es, k) == |Records(Parts(vs, es), k)|
    decreases |es| - k
  {
    if k < |es| {
      LengthExact(vs[k], es[k]);
      TupleIsRecords(vs, es, k + 1);
    }
  }

  lemma {:induction false} FindPart(ps: seq<Bytes>, k: nat, addr: nat, i: nat, sofar: Option<Slice>)
    requires k <= |ps| <= 10 && i < |ps|
    ensures BytesOf(RecordFields(ps, k, addr), i + 1, 10, sofar)
         == Some(if k <= i then Some(RecordAt(ps, k, addr, i)) else sofar)
    decreases |ps| - k
  {
    if k < |ps| {
      var fs := RecordFields(ps, k, addr);
      var next := addr + LenRecordLen(|ps[k]|);
      assert fs[1..] == RecordFields(ps, k + 1, next);
      FindPart(ps, k + 1, next, i, if i == k then Some(fs[0].payload) else sofar);
    }
  }

  /** Decoding an encoding returns the value, wherever the bytes lie, as long as the length
      is a machine word. */
  lemma {:induction false} RoundTrip(v: Value, ty: Ty, addr: nat)
    requires Typed(v, ty) && EncodedLen(v, ty) < TWO64
    ensures Decode(Slice(addr, Encoding(v, ty)), ty) == Some(v)
    decreases ty, 1
  {
    hide ReadFields, ReadField;
    var s := Slice(addr, Encoding(v, ty));
    match ty
    case TUnit =>
      ReadNothing(addr);
      DecodeOf(s, [], ty);
    case TBool => BoolRoundTrip(v.b, addr);
    case TInt(t) => IntRoundTrip(t, v.n, addr);
    case TStr => StrRoundTrip(v.str, addr);
    case TVecBool => VecBoolRoundTrip(v.bools, addr);
    case TVec(t) => VecRoundTrip(t, v.ints, addr);
    case TOption(e) =>
      if v.VSome? {
        var p := RoundTripPart(v.some, e, addr, 1);
        DecodeOf(s, [LenField(1, p)], ty);
      } else {
        ReadNothing(addr);
        DecodeOf(s, [], ty);
      }
    case TResult(e) =>
      if v.VOk? {
        var p := RoundTripPart(v.ok, e, addr, 1);
        DecodeOf(s, [LenField(1, p)], ty);
      } else {
        var p := Slice(addr + PayloadOffset(|v.err|), v.err);
        ReadOneRecord(addr, 2, v.err);
        OneBytes(p);
        DecodeOf(s, [LenField(2, p)], ty);
      }
    case TTuple(es) =>
      var ps := Parts(v.elems, es);
      TupleIsRecords(v.elems, es, 0);
      ReadRecords(ps, 0, addr);
      RoundTripFrom(v.elems, es, 0, addr);
      DecodeOf(s, RecordFields(ps, 0, addr), ty);
      assert v.elems[0..] == v.elems;
  }

  /** A value in a record of its own. */
  lemma {:induction false} RoundTripPart(v: Value, ty: Ty, addr: nat, field: nat) returns (p: Slice)
    requires Typed(v, ty) && EncodedLen(v, ty) < TWO64 && 1 <= field <= 2
    ensures ReadFields(Slice(addr, LenRecord(field, EncodedLen(v, ty), Encoding(v, ty)))) == Some([LenField(field, p)])
    ensures BytesOf([LenField(1, p)], 1, 1) == Some(Some(p))
    ensures OneOf([LenField(1, p)]) == Some(Some(LenField(1, p)))
    ensures Decode(p, ty) == Some(v)
    decreases ty, 2
  {
    hide ReadFields, ReadField, Decode, BytesOf, OneOf;
    LengthExact(v, ty);
    p := Slice(addr + PayloadOffset(EncodedLen(v, ty)), Encoding(v, ty));
    ReadOneRecord(addr, field, Encoding(v, ty));
    OneBytes(p);
    RoundTrip(v, ty, p.addr);
  }

  lemma {:induction false} RoundTripFrom(vs: seq<Value>, es: seq<Ty>, k: nat, addr: nat)
    requires TypedAll(vs, es) && k <= |es| <= 10 && EncodedLenFrom(vs, es, 0) < TWO64
    ensures DecodeFrom(RecordFields(Parts(vs, es), 0, addr), es, k) == Some(vs[k..])
    decreases es, |es| - k
  {
    hide Decode, Encoding, EncodedLen, BytesOf;
    if k < |es| {
      var ps := Parts(vs, es);
      TupleIsRecords(vs, es, 0);
      FindPart(ps, 0, addr, k, None);
      RecordIsPart(ps, 0, addr, k);
      LengthExact(vs[k], es[k]);
      RoundTrip(vs[k], es[k], RecordAt(ps, 0, addr, k).addr);
      RoundTripFrom(vs, es, k + 1, addr);
      assert [vs[k]] + vs[k + 1..] == vs[k..];
    }
  }

  /** Whatever the bytes, a decoded value has the type it was decoded at. */
  lemma {:induction false} DecodeTyped(s: Slice, ty: Ty)
    ensures var r := Decode(s, ty); r.Some? ==> Typed(r.value, ty)
    decreases ty, 1
  {
    hide ReadFields, BytesOf, OneOf, Repeated, Scalar, StringOf, FromVarints;
    var fields := ReadFields(s);
    if fields.Some? {
      var fs := fields.value;
      match ty
      case TOption(e) =>
        var b := BytesOf(fs, 1, 1);
        if b.Some? && b.value.Some? { DecodeTyped(b.value.value, e); }
      case TResult(e) =>
        var f := OneOf(fs);
        if f.Some? && f.value.Some? { DecodeTyped(f.value.value.payload, e); }
      case TTuple(es) => DecodeFromTyped(fs, es, 0);
      case _ =>
    }
  }

  lemma {:induction false} DecodeFromTyped(fs: seq<Field>, es: seq<Ty>, k: nat)
    requires k <= |es|
    ensures var r := DecodeFrom(fs, es, k); r.Some? ==> TypedAll(r.value, es[k..])
    decreases es, |es| - k
  {
    if k < |es| {
      var b := BytesOf(fs, k + 1, 10);
      if b.Some? && b.value.Some? { DecodeTyped(b.value.value, es[k]); }
      DecodeFromTyped(fs, es, k + 1);
      assert es[k..] == [es[k]] + es[k + 1..];
    }
  }

  /** Values of one type with the same bytes are the same value. */
  lemma {:induction false} EncodingInjective(v: Value, w: Value, ty: Ty)
    requires Typed(v, ty) && Typed(w, ty) && EncodedLen(v, ty) < TWO64
    requires Encoding(v, ty) == Encoding(w, ty)
    ensures v == w
  {
    hide Encoding, EncodedLen, Decode;
    LengthExact(v, ty);
    LengthExact(w, ty);
    RoundTrip(v, ty, 0);
    RoundTrip(w, ty, 0);
  }
}
