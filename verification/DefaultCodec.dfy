/**
 The default codec: fixed-width little-endian integers, raw vectors, and tuples whose
 elements are framed by a 32-bit length. `Option` and `Result` keep their protobuf framing.

 A vector of multi-byte elements is read in place, so it must be aligned in the buffer it
 arrives in, and a frame length is the element length cut to 32 bits. `RoundTripExactly`
 says when a value survives in spite of both.
 */
module DefaultCodec {
  import opened Wire
  import opened Values
  import opened CommonCodec
  import ZigZag

  // ----- Little-endian integers -----

  function LittleEndian(p: nat, size: nat): (s: Bytes)
    ensures |s| == size
  {
    if size == 0 then [] else [p % 256] + LittleEndian(p / 256, size - 1)
  }

  function Number(s: Bytes): (p: nat) {
    if s == [] then 0 else s[0] + 256 * Number(s[1..])
  }

  lemma {:induction false} Pow2Byte(k: nat)
    ensures ZigZag.Pow2(k + 8) == 256 * ZigZag.Pow2(k)
  {
    assert ZigZag.Pow2(k + 2) == 4 * ZigZag.Pow2(k);
    assert ZigZag.Pow2(k + 4) == 4 * ZigZag.Pow2(k + 2);
    assert ZigZag.Pow2(k + 6) == 4 * ZigZag.Pow2(k + 4);
  }

  lemma {:induction false} NumberRoundTrip(p: nat, size: nat)
    requires p < ZigZag.Pow2(8 * size)
    ensures Number(LittleEndian(p, size)) == p
  {
    if size > 0 {
      Pow2Byte(8 * size - 8);
      NumberRoundTrip(p / 256, size - 1);
    }
  }

  lemma {:induction false} NumberBound(s: Bytes)
    ensures Number(s) < ZigZag.Pow2(8 * |s|)
  {
    if s != [] {
      Pow2Byte(8 * |s| - 8);
      NumberBound(s[1..]);
    }
  }

  function IntBytes(t: IntTy, n: int): (s: Bytes)
    ensures |s| == t.Size()
  {
    LittleEndian(ZigZag.Pattern(n, 8 * t.Size()), t.Size())
  }

  /** The integer of type `t` with the given bytes. */
  function IntOf(t: IntTy, s: Bytes): (n: int)
    requires |s| == t.Size()
    ensures t.Has(n)
  {
    NumberBound(s);
    ZigZag.Powers();
    if t.Signed() then ZigZag.FromPattern(Number(s), 8 * t.Size()) else Number(s)
  }

  lemma {:induction false} IntRange(t: IntTy, n: int)
    requires t.Has(n)
    ensures t.Signed() ==> ZigZag.Fits(n, 8 * t.Size())
    ensures !t.Signed() ==> 0 <= n < ZigZag.Pow2(8 * t.Size())
  {
    ZigZag.Powers();
  }

  lemma {:induction false} IntRoundTrip(t: IntTy, n: int)
    requires t.Has(n)
    ensures IntOf(t, IntBytes(t, n)) == n
  {
    hide ZigZag.Pow2, Number, LittleEndian, ZigZag.Pattern;
    var bits := 8 * t.Size();
    IntRange(t, n);
    ZigZag.Doubles(bits);
    ZigZag.PatternOf(n, bits);
    NumberRoundTrip(ZigZag.Pattern(n, bits), t.Size());
  }

  // ----- Vectors -----

  function VecBytes(t: IntTy, ns: seq<int>): (s: Bytes)
    ensures |s| == |ns| * t.Size()
  {
    if ns == [] then [] else IntBytes(t, ns[0]) + VecBytes(t, ns[1..])
  }

  function VecOf(t: IntTy, s: Bytes): (ns: seq<int>)
    ensures AllHave(t, ns)
    ensures |ns| * t.Size() <= |s|
    decreases |s|
  {
    if |s| < t.Size() then [] else [IntOf(t, s[..t.Size()])] + VecOf(t, s[t.Size()..])
  }

  lemma {:induction false} VecOfStep(t: IntTy, head: Bytes, tail: Bytes)
    requires |head| == t.Size()
    ensures VecOf(t, head + tail) == [IntOf(t, head)] + VecOf(t, tail)
  {
    hide IntOf;
    assert (head + tail)[..t.Size()] == head;
    assert (head + tail)[t.Size()..] == tail;
  }

  lemma {:induction false} VecRoundTrip(t: IntTy, ns: seq<int>)
    requires AllHave(t, ns)
    ensures VecOf(t, VecBytes(t, ns)) == ns
  {
    hide IntOf, IntBytes;
    if ns != [] {
      hide VecOf;
      IntRoundTrip(t, ns[0]);
      VecRoundTrip(t, ns[1..]);
      VecOfStep(t, IntBytes(t, ns[0]), VecBytes(t, ns[1..]));
    }
  }

  function BoolBytes(bs: seq<bool>): (s: Bytes) {
    seq(|bs|, i requires 0 <= i < |bs| => if bs[i] then 1 else 0)
  }

  function BoolsOf(s: Bytes): (bs: seq<bool>) {
    seq(|s|, i requires 0 <= i < |s| => s[i] != 0)
  }

  // ----- Encoding -----

  const FRAME: nat := 4

  function Encoding(v: Value, ty: Ty): (s: Bytes)
    requires Typed(v, ty)
    decreases ty, 0
  {
    match ty
    case TUnit => []
    case TBool => [if v.b then 1 else 0]
    case TInt(t) => IntBytes(t, v.n)
    case TStr => v.str
    case TVecBool => BoolBytes(v.bools)
    case TVec(t) => VecBytes(t, v.ints)
    case TOption(e) =>
      if v.VNone? then [] else LenRecord(1, EncodedLen(v.some, e), Encoding(v.some, e))
    case TResult(e) =>
      if v.VOk? then LenRecord(1, EncodedLen(v.ok, e), Encoding(v.ok, e))
      else LenRecord(2, |v.err|, v.err)
    case TTuple(es) => EncodingFrom(v.elems, es, 0)
  }

  /** The frames of the tuple elements from the `k`-th on. A frame length is cut to 32 bits. */
  function EncodingFrom(vs: seq<Value>, es: seq<Ty>, k: nat): (s: Bytes)
    requires TypedAll(vs, es) && k <= |es|
    decreases es, |es| - k
  {
    if k == |es| then []
    else LittleEndian(EncodedLen(vs[k], es[k]) % TWO32, FRAME) + Encoding(vs[k], es[k]) + EncodingFrom(vs, es, k + 1)
  }

  function EncodedLen(v: Value, ty: Ty): (len: nat)
    requires Typed(v, ty)
    decreases ty, 0
  {
    match ty
    case TUnit => 0
    case TBool => 1
    case TInt(t) => t.Size()
    case TStr => |v.str|
    case TVecBool => |v.bools|
    case TVec(t) => |v.ints| * t.Size()
    case TOption(e) => if v.VNone? then 0 else LenRecordLen(EncodedLen(v.some, e))
    case TResult(e) => LenRecordLen(if v.VOk? then EncodedLen(v.ok, e) else |v.err|)
    case TTuple(es) => EncodedLenFrom(v.elems, es, 0)
  }

  function EncodedLenFrom(vs: seq<Value>, es: seq<Ty>, k: nat): (len: nat)
    requires TypedAll(vs, es) && k <= |es|
    decreases es, |es| - k
  {
    if k == |es| then 0 else FRAME + EncodedLen(vs[k], es[k]) + EncodedLenFrom(vs, es, k + 1)
  }

  lemma {:induction false} LengthExact(v: Value, ty: Ty)
    requires Typed(v, ty)
    ensures |Encoding(v, ty)| == EncodedLen(v, ty)
    decreases ty, 0
  {
    match ty
    case TOption(e) => if v.VSome? { LengthExact(v.some, e); }
    case TResult(e) => if v.VOk? { LengthExact(v.ok, e); }
    case TTuple(es) => LengthExactFrom(v.elems, es, 0);
    case _ =>
  }

  lemma {:induction false} LengthExactFrom(vs: seq<Value>, es: seq<Ty>, k: nat)
    requires TypedAll(vs, es) && k <= |es|
    ensures |EncodingFrom(vs, es, k)| == EncodedLenFrom(vs, es, k)
    decreases es, |es| - k
  {
    if k < |es| {
      LengthExact(vs[k], es[k]);
      LengthExactFrom(vs, es, k + 1);
    }
  }

  // ----- Decoding -----

  datatype Frame = NoFrame | Frame(elem: Slice, rest: Slice)

  /** Splits the next tuple element off a view. */
  function TakeFrame(s: Slice): (r: Frame)
    ensures r.Frame? ==>
              && |r.elem.data| < TWO32
              && FRAME + |r.elem.data| + |r.rest.data| == |s.data|
  {
    if |s.data| < FRAME then NoFrame
    else
      var len := Number(s.data[..FRAME]);
      if |s.data| - FRAME < len then NoFrame
      else
        NumberBound(s.data[..FRAME]);
        ZigZag.Powers();
        Frame(s.Cut(FRAME, len), s.Cut(FRAME + len, |s.data| - FRAME - len))
  }

  function Decode(s: Slice, ty: Ty): (r: Option<Value>)
    decreases ty, 0
  {
    match ty
    case TUnit => Some(VUnit)
    case TBool => if |s.data| == 1 then Some(VBool(s.data[0] != 0)) else None
    case TInt(t) => if |s.data| == t.Size() then Some(VInt(IntOf(t, s.data))) else None
    case TStr => if Utf8(s.data) then Some(VStr(s.data)) else None
    case TVecBool => Some(VVecBool(BoolsOf(s.data)))
    case TVec(t) =>
      if s.data == [] then Some(VVec([]))
      else if s.addr % t.Size() == 0 && |s.data| % t.Size() == 0 then Some(VVec(VecOf(t, s.data)))
      else None
    case TOption(e) =>
      var fs := ReadFields(s);
      if fs.None? then None
      else
        var b := BytesOf(fs.value, 1, 1);
        if b.None? then None
        else if b.value.None? then Some(VNone)
        else
          var v := Decode(b.value.value, e);
          if v.None? then None else Some(VSome(v.value))
    case TResult(e) =>
      var fs := ReadFields(s);
      if fs.None? then None
      else
        var f := OneOf(fs.value);
        if f.None? || f.value.None? then None
        else if f.value.value.num != 2 then
          var v := Decode(f.value.value.payload, e);
          if v.None? then None else Some(VOk(v.value))
        else Some(VErr(f.value.value.payload.data))
    case TTuple(es) =>
      if !(2 <= |es| <= 10) then None
      else
        var vs := DecodeFrom(s, es, 0);
        if vs.None? then None else Some(VTuple(vs.value))
  }

  /** Decodes the elements from the `k`-th on; bytes after the last frame are ignored. */
  function DecodeFrom(s: Slice, es: seq<Ty>, k: nat): (r: Option<seq<Value>>)
    requires k <= |es|
    decreases es, |es| - k
  {
    if k == |es| then Some([])
    else
      var f := TakeFrame(s);
      if f.NoFrame? then None
      else
        var v := Decode(f.elem, es[k]);
        if v.None? then None
        else
          var tail := DecodeFrom(f.rest, es, k + 1);
          if tail.None? then None else Some([v.value] + tail.value)
  }

  // ----- When a value survives -----

  /** Every tuple element, at any depth, has a length that fits in its frame. */
  predicate FramesFit(v: Value, ty: Ty)
    requires Typed(v, ty)
    decreases ty, 0
  {
    match ty
    case TOption(e) => v.VSome? ==> FramesFit(v.some, e)
    case TResult(e) => v.VOk? ==> FramesFit(v.ok, e)
    case TTuple(es) => FramesFitFrom(v.elems, es, 0)
    case _ => true
  }

  predicate FramesFitFrom(vs: seq<Value>, es: seq<Ty>, k: nat)
    requires TypedAll(vs, es) && k <= |es|
    decreases es, |es| - k
  {
    k == |es| || (EncodedLen(vs[k], es[k]) < TWO32 && FramesFit(vs[k], es[k]) && FramesFitFrom(vs, es, k + 1))
  }

  /** Every vector, at any depth, is aligned to its elements when the encoding starts at
      `addr`. */
  predicate Aligned(v: Value, ty: Ty, addr: nat)
    requires Typed(v, ty)
    decreases ty, 0
  {
    match ty
    case TVec(t) => v.ints == [] || addr % t.Size() == 0
    case TOption(e) => v.VSome? ==> Aligned(v.some, e, addr + PayloadOffset(EncodedLen(v.some, e)))
    case TResult(e) => v.VOk? ==> Aligned(v.ok, e, addr + PayloadOffset(EncodedLen(v.ok, e)))
    case TTuple(es) => AlignedFrom(v.elems, es, 0, addr)
    case _ => true
  }

  predicate AlignedFrom(vs: seq<Value>, es: seq<Ty>, k: nat, addr: nat)
    requires TypedAll(vs, es) && k <= |es|
    decreases es, |es| - k
  {
    k == |es| || (
      && Aligned(vs[k], es[k], addr + FRAME)
      && AlignedFrom(vs, es, k + 1, addr + FRAME + EncodedLen(vs[k], es[k])))
  }

  /** The next frame of an encoded tuple holds the next element. */
  lemma {:induction false} FrameRoundTrip(addr: nat, elem: Bytes, rest: Bytes)
    requires |elem| < TWO32
    ensures TakeFrame(Slice(addr, LittleEndian(|elem| % TWO32, FRAME) + elem + rest))
         == Frame(Slice(addr + FRAME, elem), Slice(addr + FRAME + |elem|, rest))
  {
    hide LittleEndian, Number;
    var s := LittleEndian(|elem| % TWO32, FRAME) + elem + rest;
    assert ZigZag.Pow2(8 * FRAME) == TWO32 by { ZigZag.Powers(); }
    NumberRoundTrip(|elem|, FRAME);
    assert s[..FRAME] == LittleEndian(|elem|, FRAME);
    assert s[FRAME..FRAME + |elem|] == elem;
    assert s[FRAME + |elem|..] == rest;
  }

  /** A value whose frames fit comes back unchanged if it is aligned; otherwise decoding is an
      error, never another value. */
  lemma {:induction false} FittingRoundTrip(v: Value, ty: Ty, addr: nat)
    requires Typed(v, ty) && EncodedLen(v, ty) < TWO64 && FramesFit(v, ty)
    ensures Decode(Slice(addr, Encoding(v, ty)), ty) == if Aligned(v, ty, addr) then Some(v) else None
    decreases ty, 0
  {
    hide ReadFields, IntOf, IntBytes, VecOf, VecBytes, BytesOf, OneOf, LenRecord, Utf8, VarintLen;
    match ty
    case TInt(t) => IntRoundTrip(t, v.n);
    case TVec(t) => VecReadBack(t, v.ints, addr);
    case TOption(e) => FittingOption(v, e, addr);
    case TResult(e) => FittingResult(v, e, addr);
    case TTuple(es) =>
      FittingRoundTripFrom(v.elems, es, 0, addr);
      assert v.elems[0..] == v.elems;
    case TVecBool => assert BoolsOf(BoolBytes(v.bools)) == v.bools;
    case _ =>
  }

  lemma {:induction false} FittingOption(v: Value, e: Ty, addr: nat)
    requires var ty := TOption(e); Typed(v, ty) && EncodedLen(v, ty) < TWO64 && FramesFit(v, ty)
    ensures var ty := TOption(e);
            Decode(Slice(addr, Encoding(v, ty)), ty) == if Aligned(v, ty, addr) then Some(v) else None
    decreases e, 3
  {
    hide Typed, Decode, Encoding, EncodedLen, Aligned, FramesFit, LenRecord, LenRecordLen, PayloadOffset;
    OptionLayer(v, e, addr);
    if v.VSome? {
      SomeLayer(v.some, e, addr);
      FittingSome(v.some, e, addr);
    } else {
      FittingNone(e, addr);
    }
  }

  lemma {:induction false} FittingResult(v: Value, e: Ty, addr: nat)
    requires var ty := TResult(e); Typed(v, ty) && EncodedLen(v, ty) < TWO64 && FramesFit(v, ty)
    ensures var ty := TResult(e);
            Decode(Slice(addr, Encoding(v, ty)), ty) == if Aligned(v, ty, addr) then Some(v) else None
    decreases e, 3
  {
    hide Typed, Decode, Encoding, EncodedLen, Aligned, FramesFit, LenRecord, LenRecordLen, PayloadOffset, Utf8;
    ResultLayer(v, e, addr);
    if v.VOk? {
      OkLayer(v.ok, e, addr);
      FittingSome(v.ok, e, addr);
    } else {
      FittingErr(v.err, e, addr);
    }
  }

  lemma {:induction false} OptionLayer(v: Value, e: Ty, addr: nat)
    requires Typed(v, TOption(e))
    ensures v == VNone || (v.VSome? && v == VSome(v.some) && Typed(v.some, e))
    ensures v == VNone ==> Encoding(v, TOption(e)) == [] && Aligned(v, TOption(e), addr)
  {
    hide LenRecord, LenRecordLen, PayloadOffset, EncodedLen;
  }

  lemma {:induction false} ResultLayer(v: Value, e: Ty, addr: nat)
    requires Typed(v, TResult(e))
    ensures (v.VErr? && Utf8(v.err)) || (v.VOk? && v == VOk(v.ok) && Typed(v.ok, e))
    ensures v.VErr? ==>
              && Encoding(v, TResult(e)) == LenRecord(2, |v.err|, v.err) && Aligned(v, TResult(e), addr)
              && EncodedLen(v, TResult(e)) >= |v.err| && v == VErr(v.err)
  {
    hide LenRecord, PayloadOffset, VarintLen, Utf8;
  }

  // One layer of decoding, given the fields of the message.

  lemma {:induction false} DecodeOption(s: Slice, fs: seq<Field>, p: Option<Slice>, e: Ty)
    requires ReadFields(s) == Some(fs) && BytesOf(fs, 1, 1) == Some(p)
    ensures Decode(s, TOption(e))
         == if p.None? then Some(VNone)
            else if Decode(p.value, e).None? then None
            else Some(VSome(Decode(p.value, e).value))
  {
    hide ReadFields, BytesOf;
  }

  lemma {:induction false} DecodeResult(s: Slice, f: Field, e: Ty)
    requires f.LenField? && (f.num == 1 || f.num == 2)
    requires ReadFields(s) == Some([f]) && OneOf([f]) == Some(Some(f))
    ensures Decode(s, TResult(e))
         == if f.num == 2 then Some(VErr(f.payload.data))
            else if Decode(f.payload, e).None? then None
            else Some(VOk(Decode(f.payload, e).value))
  {
    hide ReadFields, OneOf;
  }

  // One layer of the other functions, for a part `w` in a record of its own.

  lemma {:induction false} SomeLayer(w: Value, e: Ty, addr: nat)
    requires Typed(w, e)
    ensures Typed(VSome(w), TOption(e))
    ensures Encoding(VSome(w), TOption(e)) == LenRecord(1, EncodedLen(w, e), Encoding(w, e))
    ensures EncodedLen(VSome(w), TOption(e)) == LenRecordLen(EncodedLen(w, e))
    ensures FramesFit(VSome(w), TOption(e)) == FramesFit(w, e)
    ensures Aligned(VSome(w), TOption(e), addr) == Aligned(w, e, addr + PayloadOffset(EncodedLen(w, e)))
  {
    hide LenRecord, LenRecordLen, PayloadOffset;
    assert Typed(VSome(w), TOption(e));
    SomeBytes(w, e);
    hide Encoding, EncodedLen;
  }

  lemma {:induction false} SomeBytes(w: Value, e: Ty)
    requires Typed(w, e) && Typed(VSome(w), TOption(e))
    ensures Encoding(VSome(w), TOption(e)) == LenRecord(1, EncodedLen(w, e), Encoding(w, e))
    ensures EncodedLen(VSome(w), TOption(e)) == LenRecordLen(EncodedLen(w, e))
  {
    hide LenRecord, LenRecordLen, PayloadOffset, Typed;
  }

  lemma {:induction false} OkLayer(w: Value, e: Ty, addr: nat)
    requires Typed(w, e)
    ensures Typed(VOk(w), TResult(e))
    ensures Encoding(VOk(w), TResult(e)) == LenRecord(1, EncodedLen(w, e), Encoding(w, e))
    ensures EncodedLen(VOk(w), TResult(e)) == LenRecordLen(EncodedLen(w, e))
    ensures FramesFit(VOk(w), TResult(e)) == FramesFit(w, e)
    ensures Aligned(VOk(w), TResult(e), addr) == Aligned(w, e, addr + PayloadOffset(EncodedLen(w, e)))
  {
    hide LenRecord, LenRecordLen, PayloadOffset;
    assert Typed(VOk(w), TResult(e));
    OkBytes(w, e);
    hide Encoding, EncodedLen;
  }

  lemma {:induction false} OkBytes(w: Value, e: Ty)
    requires Typed(w, e) && Typed(VOk(w), TResult(e))
    ensures Encoding(VOk(w), TResult(e)) == LenRecord(1, EncodedLen(w, e), Encoding(w, e))
    ensures EncodedLen(VOk(w), TResult(e)) == LenRecordLen(EncodedLen(w, e))
  {
    hide LenRecord, LenRecordLen, PayloadOffset, Typed;
  }

  lemma {:induction false} FittingSome(w: Value, e: Ty, addr: nat)
    requires Typed(w, e) && LenRecordLen(EncodedLen(w, e)) < TWO64 && FramesFit(w, e)
    ensures var at := addr + PayloadOffset(EncodedLen(w, e));
            var s := Slice(addr, LenRecord(1, EncodedLen(w, e), Encoding(w, e)));
            && Decode(s, TOption(e)) == (if Aligned(w, e, at) then Some(VSome(w)) else None)
            && Decode(s, TResult(e)) == (if Aligned(w, e, at) then Some(VOk(w)) else None)
    decreases e, 2
  {
    hide ReadFields, BytesOf, OneOf, LenRecord, Decode, Encoding, EncodedLen, Aligned, FramesFit, Typed;
    FittingPart(w, e, addr);
    var s := Slice(addr, LenRecord(1, EncodedLen(w, e), Encoding(w, e)));
    var p := Slice(addr + PayloadOffset(EncodedLen(w, e)), Encoding(w, e));
    DecodeOption(s, [LenField(1, p)], Some(p), e);
    DecodeResult(s, LenField(1, p), e);
  }

  lemma {:induction false} FittingNone(e: Ty, addr: nat)
    ensures Decode(Slice(addr, []), TOption(e)) == Some(VNone)
  {
    ReadNothing(addr);
    NoBytes();
    DecodeOption(Slice(addr, []), [], None, e);
  }

  lemma {:induction false} FittingErr(err: Bytes, e: Ty, addr: nat)
    requires Utf8(err) && |err| < TWO64
    ensures Decode(Slice(addr, LenRecord(2, |err|, err)), TResult(e)) == Some(VErr(err))
  {
    hide ReadFields, OneOf, LenRecord, Utf8, Decode;
    var p := Slice(addr + PayloadOffset(|err|), err);
    ReadOneRecord(addr, 2, err);
    OneBytes(p);
    DecodeResult(Slice(addr, LenRecord(2, |err|, err)), LenField(2, p), e);
  }

  lemma {:induction false} VecReadBack(t: IntTy, ns: seq<int>, addr: nat)
    requires AllHave(t, ns)
    ensures Decode(Slice(addr, VecBytes(t, ns)), TVec(t))
         == if ns == [] || addr % t.Size() == 0 then Some(VVec(ns)) else None
  {
    hide VecOf, VecBytes;
    VecRoundTrip(t, ns);
    ZigZag.ModUnique(|ns| * t.Size(), t.Size(), |ns|, 0);
    assert ns != [] ==> |ns| * t.Size() >= 1;
  }

  lemma {:induction false} FittingPart(v: Value, ty: Ty, addr: nat)
    requires Typed(v, ty) && EncodedLen(v, ty) < TWO64 && FramesFit(v, ty)
    ensures var at := addr + PayloadOffset(EncodedLen(v, ty));
            var p := Slice(at, Encoding(v, ty));
            && ReadFields(Slice(addr, LenRecord(1, EncodedLen(v, ty), p.data))) == Some([LenField(1, p)])
            && BytesOf([LenField(1, p)], 1, 1) == Some(Some(p))
            && OneOf([LenField(1, p)]) == Some(Some(LenField(1, p)))
            && Decode(p, ty) == if Aligned(v, ty, at) then Some(v) else None
    decreases ty, 1
  {
    hide ReadFields, BytesOf, OneOf, Decode, Aligned;
    LengthExact(v, ty);
    var at := addr + PayloadOffset(EncodedLen(v, ty));
    ReadOneRecord(addr, 1, Encoding(v, ty));
    OneBytes(Slice(at, Encoding(v, ty)));
    FittingRoundTrip(v, ty, at);
  }

  lemma {:induction false} FittingRoundTripFrom(vs: seq<Value>, es: seq<Ty>, k: nat, addr: nat)
    requires TypedAll(vs, es) && k <= |es| && EncodedLenFrom(vs, es, k) < TWO64 && FramesFitFrom(vs, es, k)
    ensures DecodeFrom(Slice(addr, EncodingFrom(vs, es, k)), es, k)
         == if AlignedFrom(vs, es, k, addr) then Some(vs[k..]) else None
    decreases es, |es| - k
  {
    hide Encoding, EncodedLen, Decode, Aligned, FramesFit, TakeFrame, LittleEndian;
    if k < |es| {
      var elem, rest := Encoding(vs[k], es[k]), EncodingFrom(vs, es, k + 1);
      LengthExact(vs[k], es[k]);
      FrameRoundTrip(addr, elem, rest);
      FittingRoundTrip(vs[k], es[k], addr + FRAME);
      FittingRoundTripFrom(vs, es, k + 1, addr + FRAME + |elem|);
      assert [vs[k]] + vs[k + 1..] == vs[k..];
    }
  }

  /** Whatever the bytes, a decoded value has its type, was not longer than the bytes, and has
      only elements that fit in a frame. */
  lemma {:induction false} DecodeBounds(s: Slice, ty: Ty)
    ensures var r := Decode(s, ty);
            r.Some? ==> Typed(r.value, ty) && FramesFit(r.value, ty) && EncodedLen(r.value, ty) <= |s.data|
    decreases ty, 0
  {
    hide ReadFields, IntOf, VecOf, BytesOf, OneOf, VarintLen;
    match ty
    case TOption(e) =>
      var fs := ReadFields(s);
      if fs.Some? {
        var b := BytesOf(fs.value, 1, 1);
        if b.Some? && b.value.Some? {
          BytesFound(fs.value, 1, 1, None);
          PayloadFits(s, LenField(1, b.value.value));
          DecodeBounds(b.value.value, e);
          BoundsPart(b.value.value, s, e);
        }
      }
    case TResult(e) =>
      var fs := ReadFields(s);
      if fs.Some? {
        var f := OneOf(fs.value);
        if f.Some? && f.value.Some? {
          OneOfFound(fs.value, None);
          PayloadFits(s, f.value.value);
          DecodeBounds(f.value.value.payload, e);
          BoundsPart(f.value.value.payload, s, e);
        }
      }
    case TTuple(es) =>
      DecodeFromBounds(s, es, 0);
      assert es[0..] == es;
    case _ =>
  }

  lemma {:induction false} VarintLenMonotone(m: nat, n: nat)
    requires m <= n
    ensures VarintLen(m) <= VarintLen(n)
  {
    if m >= 128 { VarintLenMonotone(m / 128, n / 128); }
  }

  lemma {:induction false} BoundsPart(p: Slice, s: Slice, ty: Ty)
    requires LenRecordLen(|p.data|) <= |s.data|
    requires var r := Decode(p, ty);
             r.Some? ==> Typed(r.value, ty) && EncodedLen(r.value, ty) <= |p.data|
    ensures var r := Decode(p, ty); r.Some? ==> LenRecordLen(EncodedLen(r.value, ty)) <= |s.data|
  {
    hide Decode, EncodedLen;
    var r := Decode(p, ty);
    if r.Some? { VarintLenMonotone(EncodedLen(r.value, ty), |p.data|); }
  }

  lemma {:induction false} DecodeFromBounds(s: Slice, es: seq<Ty>, k: nat)
    requires k <= |es|
    ensures var r := DecodeFrom(s, es, k);
            r.Some? ==>
              && TypedAll(r.value, es[k..])
              && FramesFitFrom(r.value, es[k..], 0)
              && EncodedLenFrom(r.value, es[k..], 0) <= |s.data|
    decreases es, |es| - k
  {
    hide Decode, EncodedLen, FramesFit, TakeFrame;
    if k < |es| {
      var f := TakeFrame(s);
      if f.Frame? {
        DecodeBounds(f.elem, es[k]);
        DecodeFromBounds(f.rest, es, k + 1);
        var v, tail := Decode(f.elem, es[k]), DecodeFrom(f.rest, es, k + 1);
        if v.Some? && tail.Some? {
          assert es[k..] == [es[k]] + es[k + 1..];
          Shift(v.value, tail.value, es[k], es[k + 1..], 0);
        }
      }
    }
  }

  /** Putting an element in front of a tuple moves the others by one place. */
  lemma {:induction false} Shift(v: Value, vs: seq<Value>, e: Ty, es: seq<Ty>, k: nat)
    requires Typed(v, e) && TypedAll(vs, es) && k <= |es|
    ensures TypedAll([v] + vs, [e] + es)
    ensures FramesFitFrom([v] + vs, [e] + es, k + 1) == FramesFitFrom(vs, es, k)
    ensures EncodedLenFrom([v] + vs, [e] + es, k + 1) == EncodedLenFrom(vs, es, k)
    decreases |es| - k
  {
    hide EncodedLen, FramesFit;
    if k < |es| { Shift(v, vs, e, es, k + 1); }
  }

  /** A value comes back from its bytes exactly when every frame fits and every vector is
      aligned. */
  lemma {:induction false} RoundTripExactly(v: Value, ty: Ty, addr: nat)
    requires Typed(v, ty) && EncodedLen(v, ty) < TWO64
    ensures Decode(Slice(addr, Encoding(v, ty)), ty) == Some(v)
       <==> FramesFit(v, ty) && Aligned(v, ty, addr)
  {
    hide Decode, Encoding, EncodedLen, Aligned, FramesFit;
    DecodeBounds(Slice(addr, Encoding(v, ty)), ty);
    if FramesFit(v, ty) { FittingRoundTrip(v, ty, addr); }
  }

  // ----- Values that do not come back -----

  /** A vector of one two-byte number at an odd address is an error. */
  lemma {:induction false} MisalignedExample()
    ensures Typed(VVec([1]), TVec(U16)) && Decode(Slice(1, Encoding(VVec([1]), TVec(U16))), TVec(U16)) == None
  {
    assert Typed(VVec([1]), TVec(U16));
    assert EncodedLen(VVec([1]), TVec(U16)) == 2;
    FittingRoundTrip(VVec([1]), TVec(U16), 1);
  }

  /** A tuple with an element of 2^32 bytes: its frame says 0, the element's own bytes are taken
      for the next frame, and the tuple decodes to another value, with no error. */
  lemma {:induction false} OversizeElement(bs: seq<bool>, addr: nat)
    requires |bs| == TWO32
    ensures var v, ty := VTuple([VVecBool(bs), VUnit]), TTuple([TVecBool, TUnit]);
            && Typed(v, ty)
            && Decode(Slice(addr, Encoding(v, ty)), ty) == Some(VTuple([VVecBool([]), VUnit]))
  {
    var vs, es := [VVecBool(bs), VUnit], [TVecBool, TUnit];
    assert Typed(VVecBool(bs), TVecBool) && Typed(VUnit, TUnit);
    assert TypedAll(vs, es);
    hide LittleEndian, Number, BoolBytes, BoolsOf, TakeFrame, EncodingFrom, DecodeFrom;
    Bools(bs);
    OversizeFrames(bs, vs, es);
    var big, tail := BoolBytes(bs), EncodingFrom(vs, es, 1);
    FrameRoundTrip(addr, [], big + tail);
    var rest := Slice(addr + FRAME, big + tail);
    LastFrame(rest);
    TwoFrames(Slice(addr, EncodingFrom(vs, es, 0)), es, Slice(addr + FRAME, []), rest);
  }

  lemma {:induction false} OversizeFrames(bs: seq<bool>, vs: seq<Value>, es: seq<Ty>)
    requires |bs| == TWO32 && vs == [VVecBool(bs), VUnit] && es == [TVecBool, TUnit] && TypedAll(vs, es)
    ensures EncodingFrom(vs, es, 0) == LittleEndian(0, FRAME) + [] + (BoolBytes(bs) + EncodingFrom(vs, es, 1))
    ensures |EncodingFrom(vs, es, 1)| == FRAME
  {
    hide LittleEndian, BoolBytes;
    LengthExactFrom(vs, es, 1);
  }

  lemma {:induction false} LastUnit(s: Slice, es: seq<Ty>)
    requires es == [TVecBool, TUnit] && TakeFrame(s).Frame?
    ensures DecodeFrom(s, es, 1) == Some([VUnit])
  {
    hide TakeFrame;
    var rest := TakeFrame(s).rest;
    assert DecodeFrom(rest, es, 2) == Some([]);
    assert [VUnit] + [] == [VUnit];
  }

  lemma {:induction false} TwoFrames(s: Slice, es: seq<Ty>, elem: Slice, rest: Slice)
    requires es == [TVecBool, TUnit] && TakeFrame(s) == Frame(elem, rest) && TakeFrame(rest).Frame?
    ensures DecodeFrom(s, es, 0) == Some([VVecBool(BoolsOf(elem.data)), VUnit])
  {
    hide TakeFrame, BoolsOf;
    LastUnit(rest, es);
    var v := Decode(elem, es[0]);
    assert v == Some(VVecBool(BoolsOf(elem.data)));
    assert [v.value] + [VUnit] == [v.value, VUnit];
  }

  lemma {:induction false} Bools(bs: seq<bool>)
    ensures |BoolBytes(bs)| == |bs| && BoolsOf([]) == []
  {
  }

  /** Whatever the bytes, 2^32 and more of them behind a length hold a frame. */
  lemma {:induction false} LastFrame(s: Slice)
    requires |s.data| >= TWO32 + FRAME
    ensures TakeFrame(s).Frame?
  {
    NumberBound(s.data[..FRAME]);
    ZigZag.Powers();
  }
}
