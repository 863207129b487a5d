/**
 The encoders as they run: they append to a growing buffer, and the framed decoder cuts
 elements off the front of its buffer. Each is proved to do to the buffer exactly what the
 codec's function says, so the theorems about those functions hold of the code.
 */
module Encoders {
  import opened Wire
  import opened Values
  import ProstCodec
  import DefaultCodec

  class BytesMut {
    var data: Bytes

    constructor ()
      ensures data == []
    {
      data := [];
    }

    method Extend(s: Bytes)
      modifies this
      ensures data == old(data) + s
    {
      data := data + s;
    }
  }

  method PutVarint(n: nat, buf: BytesMut)
    modifies buf
    ensures buf.data == old(buf.data) + Varint(n)
  {
    var rest := n;
    while rest >= 128
      invariant buf.data + Varint(rest) == old(buf.data) + Varint(n)
    {
      assert Varint(rest) == [rest % 128 + 128] + Varint(rest / 128);
      assert buf.data + Varint(rest) == buf.data + [rest % 128 + 128] + Varint(rest / 128);
      buf.Extend([rest % 128 + 128]);
      rest := rest / 128;
    }
    buf.Extend([rest]);
  }

  /** The payload length of a packed field, summed up element by element. */
  method SumVarintLens(vs: seq<nat>) returns (len: nat)
    ensures len == |ProstCodec.Packed(vs)|
  {
    len := 0;
    assert vs[0..] == vs;
    for i := 0 to |vs|
      invariant len + ProstCodec.PackedLen(vs[i..]) == ProstCodec.PackedLen(vs)
    {
      assert vs[i..][1..] == vs[i + 1..];
      len := len + VarintLen(vs[i]);
    }
  }

  method PutVarints(vs: seq<nat>, buf: BytesMut)
    modifies buf
    ensures buf.data == old(buf.data) + ProstCodec.Packed(vs)
  {
    hide Varint;
    assert vs[0..] == vs;
    for i := 0 to |vs|
      invariant buf.data + ProstCodec.Packed(vs[i..]) == old(buf.data) + ProstCodec.Packed(vs)
    {
      assert vs[i..][1..] == vs[i + 1..];
      ghost var before := buf.data;
      PutVarint(vs[i], buf);
      assert buf.data + ProstCodec.Packed(vs[i + 1..]) == before + ProstCodec.Packed(vs[i..]);
    }
    assert buf.data + [] == buf.data;
  }

  /** The packed varint field of a vector: nothing for an empty one, otherwise the key, the
      payload length and the elements in order. */
  method EncodePackedVarint(vs: seq<nat>, buf: BytesMut)
    modifies buf
    ensures buf.data == old(buf.data) + ProstCodec.PackedField(vs)
  {
    hide Varint, VarintLen, ProstCodec.Packed;
    if vs == [] { return; }
    var dataLen := SumVarintLens(vs);
    PutLenPrefix(1, dataLen, buf);
    PutVarints(vs, buf);
  }

  method PutLenPrefix(field: nat, len: nat, buf: BytesMut)
    requires 1 <= field <= 15
    modifies buf
    ensures buf.data == old(buf.data) + [LENGTH_DELIMITED_TAGS[field]] + Varint(len)
  {
    buf.Extend([LENGTH_DELIMITED_TAGS[field]]);
    PutVarint(len, buf);
  }

  /** `encode` of the protobuf codec: leaves what the buffer holds and appends the encoding,
      which has the announced length. */
  method ProstEncode(v: Value, ty: Ty, buf: BytesMut)
    requires Typed(v, ty)
    modifies buf
    ensures buf.data == old(buf.data) + ProstCodec.Encoding(v, ty)
    ensures |buf.data| == |old(buf.data)| + ProstCodec.EncodedLen(v, ty)
    decreases ty, 1
  {
    hide ProstCodec.PackedField, LenRecord, VarintRecord, Utf8, Varint;
    ProstCodec.LengthExact(v, ty);
    match ty
    case TUnit =>
    case TBool => if v.b { buf.Extend(VarintRecord(1)); }
    case TInt(t) => if v.n != 0 { buf.Extend(VarintRecord(ProstCodec.Pattern64(v.n))); }
    case TStr => PutBytes(v.str, buf);
    case TVecBool => EncodePackedVarint(ProstCodec.BoolVarints(v.bools), buf);
    case TVec(t) =>
      if t == U8 {
        PutBytes(v.ints, buf);
      } else {
        EncodePackedVarint(ProstCodec.ToVarints(t, v.ints), buf);
      }
    case TOption(e) => if v.VSome? { ProstEncodePart(v.some, e, 1, buf); }
    case TResult(e) =>
      if v.VOk? {
        ProstEncodePart(v.ok, e, 1, buf);
      } else {
        PutString(v.err, buf);
      }
    case TTuple(es) => ProstEncodeTuple(v.elems, es, buf);
  }

  method PutBytes(s: Bytes, buf: BytesMut)
    modifies buf
    ensures buf.data == old(buf.data) + ProstCodec.BytesField(s)
  {
    if s != [] { buf.Extend(LenRecord(1, |s|, s)); }
  }

  method PutString(s: Bytes, buf: BytesMut)
    modifies buf
    ensures buf.data == old(buf.data) + LenRecord(2, |s|, s)
  {
    PutLenPrefix(2, |s|, buf);
    buf.Extend(s);
  }

  method ProstEncodeTuple(vs: seq<Value>, es: seq<Ty>, buf: BytesMut)
    requires TypedAll(vs, es) && |es| <= 10
    modifies buf
    ensures buf.data == old(buf.data) + ProstCodec.EncodingFrom(vs, es, 0)
    decreases es, 0
  {
    hide ProstCodec.Encoding, ProstCodec.EncodedLen, LenRecord;
    for i := 0 to |es|
      invariant buf.data + ProstCodec.EncodingFrom(vs, es, i) == old(buf.data) + ProstCodec.EncodingFrom(vs, es, 0)
    {
      ghost var before := buf.data;
      ProstEncodePart(vs[i], es[i], i + 1, buf);
      assert buf.data + ProstCodec.EncodingFrom(vs, es, i + 1) == before + ProstCodec.EncodingFrom(vs, es, i);
    }
    assert buf.data + [] == buf.data;
  }

  method ProstEncodePart(v: Value, ty: Ty, field: nat, buf: BytesMut)
    requires Typed(v, ty) && 1 <= field <= 15
    modifies buf
    ensures buf.data == old(buf.data) + LenRecord(field, ProstCodec.EncodedLen(v, ty), ProstCodec.Encoding(v, ty))
    decreases ty, 2
  {
    hide ProstCodec.Encoding, ProstCodec.EncodedLen;
    PutLenPrefix(field, ProstCodec.EncodedLen(v, ty), buf);
    ProstEncode(v, ty, buf);
  }

  /** `encode_to_bytes`, which `Option` and `Result` override: the same bytes as `encode`. */
  method ProstEncodeToBytes(v: Value, ty: Ty) returns (s: Bytes)
    requires Typed(v, ty)
    ensures s == ProstCodec.Encoding(v, ty)
  {
    hide LenRecord;
    var buf := new BytesMut();
    match ty {
      case TOption(e) =>
        if v.VNone? { return []; }
        ProstEncodePart(v.some, e, 1, buf);
      case TResult(e) =>
        if v.VOk? {
          ProstEncodePart(v.ok, e, 1, buf);
        } else {
          PutString(v.err, buf);
        }
      case _ => ProstEncode(v, ty, buf);
    }
    return buf.data;
  }

  /** `encode` of the default codec. */
  method DefaultEncode(v: Value, ty: Ty, buf: BytesMut)
    requires Typed(v, ty)
    modifies buf
    ensures buf.data == old(buf.data) + DefaultCodec.Encoding(v, ty)
    ensures |buf.data| == |old(buf.data)| + DefaultCodec.EncodedLen(v, ty)
    decreases ty, 1
  {
    hide LenRecord, Utf8, AllHave, Varint, DefaultCodec.IntBytes, DefaultCodec.VecBytes;
    DefaultCodec.LengthExact(v, ty);
    match ty
    case TUnit =>
    case TBool => buf.Extend([if v.b then 1 else 0]);
    case TInt(t) => buf.Extend(DefaultCodec.IntBytes(t, v.n));
    case TStr => buf.Extend(v.str);
    case TVecBool => buf.Extend(DefaultCodec.BoolBytes(v.bools));
    case TVec(t) => buf.Extend(DefaultCodec.VecBytes(t, v.ints));
    case TOption(e) => if v.VSome? { DefaultEncodePart(v.some, e, buf); }
    case TResult(e) =>
      if v.VOk? {
        DefaultEncodePart(v.ok, e, buf);
      } else {
        PutString(v.err, buf);
      }
    case TTuple(es) => DefaultEncodeTuple(v.elems, es, buf);
  }

  method DefaultEncodePart(v: Value, ty: Ty, buf: BytesMut)
    requires Typed(v, ty)
    modifies buf
    ensures buf.data == old(buf.data) + LenRecord(1, DefaultCodec.EncodedLen(v, ty), DefaultCodec.Encoding(v, ty))
    decreases ty, 2
  {
    hide DefaultCodec.Encoding, DefaultCodec.EncodedLen;
    PutLenPrefix(1, DefaultCodec.EncodedLen(v, ty), buf);
    DefaultEncode(v, ty, buf);
  }

  method DefaultEncodeTuple(vs: seq<Value>, es: seq<Ty>, buf: BytesMut)
    requires TypedAll(vs, es)
    modifies buf
    ensures buf.data == old(buf.data) + DefaultCodec.EncodingFrom(vs, es, 0)
    decreases es, 0
  {
    hide DefaultCodec.Encoding, DefaultCodec.EncodedLen, DefaultCodec.LittleEndian;
    for i := 0 to |es|
      invariant buf.data + DefaultCodec.EncodingFrom(vs, es, i) == old(buf.data) + DefaultCodec.EncodingFrom(vs, es, 0)
    {
      ghost var before := buf.data;
      EncodeElement(vs[i], es[i], buf);
      assert buf.data + DefaultCodec.EncodingFrom(vs, es, i + 1) == before + DefaultCodec.EncodingFrom(vs, es, i);
    }
    assert buf.data + [] == buf.data;
  }

  /** One framed tuple element: the length is cut to 32 bits. */
  method EncodeElement(v: Value, ty: Ty, buf: BytesMut)
    requires Typed(v, ty)
    modifies buf
    ensures buf.data == old(buf.data)
                      + DefaultCodec.LittleEndian(DefaultCodec.EncodedLen(v, ty) % TWO32, DefaultCodec.FRAME)
                      + DefaultCodec.Encoding(v, ty)
    decreases ty, 2
  {
    hide DefaultCodec.Encoding, DefaultCodec.EncodedLen, DefaultCodec.LittleEndian;
    buf.Extend(DefaultCodec.LittleEndian(DefaultCodec.EncodedLen(v, ty) % TWO32, DefaultCodec.FRAME));
    DefaultEncode(v, ty, buf);
  }

  /** A buffer being consumed from the front. */
  class Cursor {
    var view: Slice

    constructor (s: Slice)
      ensures view == s
    {
      view := s;
    }

    method SplitTo(n: nat) returns (head: Slice)
      requires n <= |view.data|
      modifies this
      ensures head == old(view).Cut(0, n) && view == old(view).Cut(n, |old(view).data| - n)
    {
      head := view.Cut(0, n);
      view := view.Cut(n, |view.data| - n);
    }
  }

  /** Cuts the next tuple element off the buffer, or fails if its frame is not complete. */
  method DecodeElement(buf: Cursor) returns (r: Option<Slice>)
    modifies buf
    ensures var f := DefaultCodec.TakeFrame(old(buf.view));
            if f.NoFrame? then r == None else r == Some(f.elem) && buf.view == f.rest
  {
    hide DefaultCodec.Number;
    ghost var whole := buf.view;
    if |buf.view.data| < DefaultCodec.FRAME { return None; }
    var prefix := buf.SplitTo(DefaultCodec.FRAME);
    var len := DefaultCodec.Number(prefix.data);
    if |buf.view.data| < len { return None; }
    assert buf.view.data[..len] == whole.data[DefaultCodec.FRAME..DefaultCodec.FRAME + len];
    assert buf.view.data[len..] == whole.data[DefaultCodec.FRAME + len..];
    var elem := buf.SplitTo(len);
    return Some(elem);
  }

  /** The framed tuple decoder, element by element. */
  method DefaultDecodeTuple(s: Slice, es: seq<Ty>) returns (r: Option<Value>)
    requires 2 <= |es| <= 10
    ensures r == DefaultCodec.Decode(s, TTuple(es))
  {
    hide DefaultCodec.TakeFrame;
    var buf := new Cursor(s);
    var vs := [];
    ghost var whole := DefaultCodec.DecodeFrom(s, es, 0);
    assert whole.Some? ==> [] + whole.value == whole.value;
    for i := 0 to |es|
      invariant var tail := DefaultCodec.DecodeFrom(buf.view, es, i);
                whole == if tail.None? then None else Some(vs + tail.value)
    {
      ghost var before := DefaultCodec.DecodeFrom(buf.view, es, i);
      var elem := DecodeElement(buf);
      if elem.None? { return None; }
      var v := DefaultCodec.Decode(elem.value, es[i]);
      if v.None? { return None; }
      assert before.Some? ==> vs + before.value == vs + [v.value] + before.value[1..];
      vs := vs + [v.value];
    }
    assert vs + [] == vs;
    return Some(VTuple(vs));
  }
}
