/**
 Encodings byte by byte: the examples of the Protocol Buffers encoding guide and one for each
 shape of value. Encoder and decoder that agree on another format do not pass.
 */
module KnownBytes {
  import opened Wire
  import opened Values
  import opened CommonCodec
  import opened ProstCodec
  import ZigZag
  import DefaultCodec

  lemma {:induction false} TwoBytes(a: nat, b: nat)
    requires a < 128 && 1 <= b < 128
    ensures Varint(b * 128 + a) == [a + 128, b]
  {
    assert Varint(b) == [b];
  }

  /** 150 is 96 01, as in section "Base 128 Varints"; 86942 has three bytes. */
  lemma {:induction false} VarintExamples()
    ensures Varint(0) == [0] && Varint(1) == [1] && Varint(127) == [0x7F]
    ensures Varint(150) == [0x96, 0x01] && Varint(300) == [0xAC, 0x02]
    ensures Varint(270) == [0x8E, 0x02] && Varint(86942) == [0x9E, 0xA7, 0x05]
  {
    TwoBytes(22, 1);
    TwoBytes(44, 2);
    TwoBytes(14, 2);
    TwoBytes(39, 5);
    assert 86942 == 679 * 128 + 30 && 679 == 5 * 128 + 39;
    assert Varint(86942) == [30 + 128] + Varint(679);
  }

  lemma {:induction false} OneByte(n: nat)
    requires n < 128
    ensures Varint(n) == [n]
  {
  }

  // ----- The prost codec -----

  ghost predicate Prost(v: Value, ty: Ty, bytes: Bytes) {
    Typed(v, ty) && Encoding(v, ty) == bytes
  }

  /** Integers, booleans and unit: field 1 as a varint, and nothing for a default value. */
  lemma {:induction false} ProstScalars(n: int)
    requires 1 <= n < 128
    ensures Prost(VInt(n), TInt(I32), [0x08, n]) && Prost(VInt(n), TInt(U64), [0x08, n])
    ensures Prost(VInt(150), TInt(I32), [0x08, 0x96, 0x01])
    ensures Prost(VBool(true), TBool, [0x08, 0x01]) && Prost(VBool(false), TBool, [])
    ensures Prost(VInt(0), TInt(I32), []) && Prost(VUnit, TUnit, [])
  {
    hide Varint;
    VarintExamples();
    OneByte(n);
  }

  /** A string or a byte vector of less than 128 bytes: field 1 with its length. */
  lemma {:induction false} ProstBytes(s: Bytes)
    requires 0 < |s| < 128
    ensures Utf8(s) ==> Prost(VStr(s), TStr, [0x0A, |s|] + s)
    ensures Prost(VVec(s), TVec(U8), [0x0A, |s|] + s)
    ensures Prost(VVec([]), TVec(U8), [])
  {
    hide Utf8;
    OneByte(|s|);
  }

  lemma {:induction false} PackedThree(a: nat, b: nat, c: nat)
    ensures Packed([a, b, c]) == Varint(a) + Varint(b) + Varint(c)
    ensures Packed([a, b]) == Varint(a) + Varint(b)
  {
    hide Varint;
    assert [a, b, c][1..] == [b, c] && [b, c][1..] == [c] && [c][1..] == [] && [a, b][1..] == [b] && [b][1..] == [];
    assert Packed([c]) == Varint(c) + [] && Packed([b]) == Varint(b) + [];
    assert Packed([b, c]) == Varint(b) + Packed([c]);
  }

  /** A vector is field 1 with its packed elements. */
  lemma {:induction false} ProstPacked(t: IntTy, ns: seq<int>, bytes: Bytes)
    requires t != U8 && ns != [] && AllHave(t, ns) && Packed(ToVarints(t, ns)) == bytes && |bytes| < 128
    ensures Prost(VVec(ns), TVec(t), [0x0A, |bytes|] + bytes)
  {
    hide Packed, PackedLen, Varint, ToVarint;
    OneByte(|bytes|);
  }

  lemma {:induction false} ThreeVarints(t: IntTy, a: int, b: int, c: int)
    requires t.Has(a) && t.Has(b) && t.Has(c)
    ensures AllHave(t, [a, b, c])
    ensures ToVarints(t, [a, b, c]) == [ToVarint(t, a), ToVarint(t, b), ToVarint(t, c)]
  {
    hide ToVarint;
  }

  /** The packed example of the guide: 3, 270 and 86942 in field 1. */
  lemma {:induction false} ProstVector()
    ensures Prost(VVec([3, 270, 86942]), TVec(U32), [0x0A, 0x06] + [0x03, 0x8E, 0x02, 0x9E, 0xA7, 0x05])
  {
    VarintExamples();
    OneByte(3);
    ThreeVarints(U32, 3, 270, 86942);
    assert ToVarint(U32, 3) == 3 && ToVarint(U32, 270) == 270 && ToVarint(U32, 86942) == 86942;
    PackedThree(3, 270, 86942);
    hide Packed, Varint, ToVarints, ToVarint, Prost, AllHave;
    ProstPacked(U32, [3, 270, 86942], [0x03, 0x8E, 0x02, 0x9E, 0xA7, 0x05]);
  }

  lemma {:induction false} ProstBooleans()
    ensures Prost(VVecBool([true, false]), TVecBool, [0x0A, 0x02, 0x01, 0x00])
  {
    OneByte(1);
    OneByte(0);
    OneByte(2);
    PackedThree(1, 0, 0);
    hide Packed, Varint, PackedLen;
    assert BoolVarints([true, false]) == [1, 0];
  }

  /** Signed elements are ZigZag: 0, -1 and 1 are 0, 1 and 2. */
  lemma {:induction false} ProstSigned()
    ensures Prost(VVec([0, -1, 1]), TVec(I32), [0x0A, 0x03] + [0x00, 0x01, 0x02])
  {
    OneByte(0);
    OneByte(1);
    OneByte(2);
    Signed(0);
    Signed(-1);
    Signed(1);
    ThreeVarints(I32, 0, -1, 1);
    PackedThree(0, 1, 2);
    hide Packed, Varint, ToVarints, ToVarint, Prost, AllHave;
    ProstPacked(I32, [0, -1, 1], [0x00, 0x01, 0x02]);
  }

  lemma {:induction false} Signed(n: int)
    requires -2 <= n <= 1
    ensures ToVarint(I32, n) == if n >= 0 then 2 * n else -2 * n - 1
  {
    hide ZigZag.Encode;
    assert ZigZag.Fits(n, 32) by { ZigZag.Powers32(); }
    hide ZigZag.Fits;
    ZigZag.EncodeMeaning(n, 32);
  }

  /** A part is field 1, whatever its bytes; nothing is no bytes. */
  lemma {:induction false} ProstParts(v: Value, ty: Ty, bytes: Bytes)
    requires Prost(v, ty, bytes) && |bytes| < 128
    ensures Prost(VSome(v), TOption(ty), [0x0A, |bytes|] + bytes) && Prost(VNone, TOption(ty), [])
    ensures Prost(VOk(v), TResult(ty), [0x0A, |bytes|] + bytes)
  {
    hide Varint;
    LengthExact(v, ty);
    OneByte(|bytes|);
  }

  /** An error is field 2. */
  lemma {:induction false} ProstError(s: Bytes, ty: Ty)
    requires Utf8(s) && |s| < 128
    ensures Prost(VErr(s), TResult(ty), [0x12, |s|] + s)
  {
    hide Utf8, Varint;
    OneByte(|s|);
  }

  /** The elements of a pair are fields 1 and 2. */
  lemma {:induction false} ProstPair(v: Value, w: Value, tv: Ty, tw: Ty, x: Bytes, y: Bytes)
    requires Prost(v, tv, x) && Prost(w, tw, y) && |x| < 128 && |y| < 128
    ensures Prost(VTuple([v, w]), TTuple([tv, tw]), ([0x0A, |x|] + x) + ([0x12, |y|] + y))
  {
    var vs, es := [v, w], [tv, tw];
    PairTyped(v, w, tv, tw);
    ProstElement(vs, es, 0, x);
    ProstElement(vs, es, 1, y);
    assert EncodingFrom(vs, es, 2) == [];
    assert Encoding(VTuple(vs), TTuple(es)) == EncodingFrom(vs, es, 0);
    hide EncodingFrom, Encoding, Typed;
    assert ([0x12, |y|] + y) + [] == [0x12, |y|] + y;
  }

  lemma {:induction false} PairTyped(v: Value, w: Value, tv: Ty, tw: Ty)
    requires Typed(v, tv) && Typed(w, tw)
    ensures TypedAll([v, w], [tv, tw]) && Typed(VTuple([v, w]), TTuple([tv, tw]))
  {
    var vs, es := [v, w], [tv, tw];
    assert Typed(vs[0], es[0]) && Typed(vs[1], es[1]);
    assert TypedAll(vs, es);
  }

  lemma {:induction false} ShortRecord(k: nat, x: Bytes)
    requires k < 10 && |x| < 128
    ensures LenRecord(k + 1, |x|, x) == [0x0A + 8 * k, |x|] + x
  {
    OneByte(|x|);
    hide Varint;
    assert LENGTH_DELIMITED_TAGS[k + 1] == 0x0A + 8 * k;
  }

  lemma {:induction false} ProstElement(vs: seq<Value>, es: seq<Ty>, k: nat, x: Bytes)
    requires TypedAll(vs, es) && k < |es| <= 10 && Prost(vs[k], es[k], x) && |x| < 128
    ensures EncodingFrom(vs, es, k) == ([0x0A + 8 * k, |x|] + x) + EncodingFrom(vs, es, k + 1)
  {
    LengthExact(vs[k], es[k]);
    ShortRecord(k, x);
    hide Varint, Typed, TypedAll, EncodedLen, Encoding, LenRecord;
  }

  // ----- The default codec -----

  ghost predicate Default(v: Value, ty: Ty, bytes: Bytes) {
    Typed(v, ty) && DefaultCodec.Encoding(v, ty) == bytes
  }

  lemma {:induction false} SmallEndian(n: nat)
    requires n < 0x1_0000
    ensures DefaultCodec.LittleEndian(n, 2) == [n % 256, n / 256]
    ensures n < 256 ==> DefaultCodec.LittleEndian(n, 1) == [n] && DefaultCodec.LittleEndian(n, 4) == [n, 0, 0, 0]
  {
    assert DefaultCodec.LittleEndian(0, 0) == [] && DefaultCodec.LittleEndian(0, 1) == [0];
    assert DefaultCodec.LittleEndian(0, 2) == [0, 0] && DefaultCodec.LittleEndian(0, 3) == [0, 0, 0];
  }

  /** A number has its low byte first, and a negative one its two's complement. */
  lemma {:induction false} DefaultNumbers(n: nat)
    requires n < 0x1_0000
    ensures Default(VInt(n), TInt(U16), [n % 256, n / 256])
    ensures Default(VInt(-2), TInt(I8), [0xFE])
  {
    SmallEndian(n);
    SmallEndian(254);
    assert ZigZag.Pow2(8) == 256 && ZigZag.Pow2(16) == 0x1_0000 by { ZigZag.Powers(); }
    hide DefaultCodec.LittleEndian, ZigZag.Pow2;
    assert ZigZag.Pattern(-2, 8) == 254 && ZigZag.Pattern(n, 16) == n;
  }

  /** A vector is its elements one after the other. */
  lemma {:induction false} DefaultVector(a: nat, b: nat)
    requires a < 0x1_0000 && b < 0x1_0000
    ensures Default(VVec([a, b]), TVec(U16), [a % 256, a / 256, b % 256, b / 256])
  {
    DefaultNumbers(a);
    DefaultNumbers(b);
    hide DefaultCodec.IntBytes;
    var ns := [a, b];
    assert ns[1..] == [b] && [b][1..] == [];
    assert DefaultCodec.VecBytes(U16, [b]) == DefaultCodec.IntBytes(U16, b) + [];
    assert Default(VInt(a), TInt(U16), DefaultCodec.IntBytes(U16, a));
    assert Default(VInt(b), TInt(U16), DefaultCodec.IntBytes(U16, b));
  }

  lemma {:induction false} DefaultPlain(s: Bytes)
    requires Utf8(s)
    ensures Default(VVecBool([true, false]), TVecBool, [1, 0])
    ensures Default(VBool(true), TBool, [1]) && Default(VBool(false), TBool, [0])
    ensures Default(VStr(s), TStr, s) && Default(VUnit, TUnit, [])
  {
    hide Utf8;
  }

  /** Each element of a pair has its length in four bytes before it. */
  lemma {:induction false} DefaultPair(v: Value, w: Value, tv: Ty, tw: Ty, x: Bytes, y: Bytes)
    requires Default(v, tv, x) && Default(w, tw, y) && |x| < 256 && |y| < 256
    ensures Default(VTuple([v, w]), TTuple([tv, tw]), ([|x|, 0, 0, 0] + x) + ([|y|, 0, 0, 0] + y))
  {
    var vs, es := [v, w], [tv, tw];
    PairTyped(v, w, tv, tw);
    DefaultElement(vs, es, 0, x);
    DefaultElement(vs, es, 1, y);
    assert DefaultCodec.EncodingFrom(vs, es, 2) == [];
    assert DefaultCodec.Encoding(VTuple(vs), TTuple(es)) == DefaultCodec.EncodingFrom(vs, es, 0);
    hide DefaultCodec.EncodingFrom, DefaultCodec.Encoding, Typed;
    assert ([|y|, 0, 0, 0] + y) + [] == [|y|, 0, 0, 0] + y;
  }

  lemma {:induction false} ShortFrame(x: Bytes)
    requires |x| < 256
    ensures DefaultCodec.LittleEndian(|x| % TWO32, 4) + x == [|x|, 0, 0, 0] + x
  {
    SmallEndian(|x|);
    hide DefaultCodec.LittleEndian;
  }

  lemma {:induction false} DefaultElement(vs: seq<Value>, es: seq<Ty>, k: nat, x: Bytes)
    requires TypedAll(vs, es) && k < |es| && Default(vs[k], es[k], x) && |x| < 256
    ensures DefaultCodec.EncodingFrom(vs, es, k) == ([|x|, 0, 0, 0] + x) + DefaultCodec.EncodingFrom(vs, es, k + 1)
  {
    DefaultCodec.LengthExact(vs[k], es[k]);
    ShortFrame(x);
    hide DefaultCodec.LittleEndian, Typed, TypedAll, DefaultCodec.EncodedLen, DefaultCodec.Encoding;
  }

  // ----- Bytes that no encoder writes -----

  /** A number too wide for its type is an error, not another number. */
  lemma {:induction false} WideNumber(v: nat, addr: nat)
    requires 256 <= v < TWO32
    ensures Decode(Slice(addr, VarintRecord(v)), TInt(U8)) == None
  {
    hide ReadFields;
    ReadVarintRecord(addr, v);
    assert ZigZag.Pow2(32) == TWO32 by { ZigZag.Powers(); }
    hide ZigZag.Pow2;
    assert Scalar([VarintField(1, v)]) == Some(v);
  }

  /** The last occurrence of field 1, searched from the back. */
  function LastFirst(fs: seq<Field>): Option<Field>
    decreases fs
  {
    if fs == [] then None
    else if fs[|fs| - 1].num == 1 then Some(fs[|fs| - 1]) else LastFirst(fs[..|fs| - 1])
  }

  lemma {:induction false} ScalarMore(fs: seq<Field>, f: Field, sofar: nat)
    ensures Scalar(fs + [f], sofar) ==
            if Scalar(fs, sofar).None? then None
            else if f.num != 1 then Scalar(fs, sofar)
            else if f.VarintField? then Some(f.value) else None
    decreases fs
  {
    if fs == [] {
      assert ([] + [f])[1..] == [];
    } else {
      assert (fs + [f])[1..] == fs[1..] + [f];
      if fs[0].num != 1 || fs[0].VarintField? {
        ScalarMore(fs[1..], f, if fs[0].num != 1 then sofar else fs[0].value);
      }
    }
  }

  /** Of several occurrences of a scalar the last one counts, other fields are skipped, nothing
      means zero, and another wire type anywhere is an error. */
  lemma {:induction false} LastScalarWins(fs: seq<Field>)
    ensures Scalar(fs).None? <==> exists i :: 0 <= i < |fs| && fs[i].num == 1 && !fs[i].VarintField?
    ensures Scalar(fs).Some? ==>
              match LastFirst(fs)
              case None => Scalar(fs) == Some(0)
              case Some(f) => f.VarintField? && Scalar(fs) == Some(f.value)
    decreases fs
  {
    if fs != [] {
      var init, f := fs[..|fs| - 1], fs[|fs| - 1];
      assert fs == init + [f];
      ScalarMore(init, f, 0);
      LastScalarWins(init);
    }
  }

  /** A repeated field collects its occurrences in order, packed or single. */
  lemma {:induction false} RepeatedInTurn(fs: seq<Field>, f: Field)
    ensures Repeated([]) == Some([])
    ensures var x, y := Repeated(fs), Repeated(fs + [f]);
            if x.None? then y == None
            else if f.num != 1 then y == x
            else match f
              case VarintField(_, v) => y == Some(x.value + [v])
              case LenField(_, p) =>
                y == if ReadPacked(p.data).None? then None else Some(x.value + ReadPacked(p.data).value)
              case _ => y == None
    decreases fs
  {
    hide ReadPacked;
    if fs == [] {
      assert ([] + [f])[1..] == [];
      assert Repeated([]) == Some([]);
      match f {
        case VarintField(_, v) => assert [v] + [] == [] + [v];
        case LenField(_, p) =>
          var r := ReadPacked(p.data);
          if r.Some? { assert r.value + [] == [] + r.value; }
        case _ =>
      }
    } else {
      assert (fs + [f])[1..] == fs[1..] + [f] && (fs + [f])[0] == fs[0];
      RepeatedInTurn(fs[1..], f);
      assert forall a: seq<nat>, b: seq<nat>, c: seq<nat> :: a + b + c == a + (b + c);
    }
  }

  /** Of several strings the last one counts, and each must be UTF-8. */
  lemma {:induction false} StringInTurn(fs: seq<Field>, f: Field, sofar: Bytes)
    requires Utf8(sofar)
    ensures StringOf([]) == Some([])
    ensures var x, y := StringOf(fs, sofar), StringOf(fs + [f], sofar);
            if x.None? then y == None
            else if f.num > 1 then y == x
            else y == if f.LenField? && Utf8(f.payload.data) then Some(f.payload.data) else None
    decreases fs
  {
    assert StringOf([]) == Some([]);
    hide Utf8;
    if fs == [] {
      assert ([] + [f])[1..] == [];
    } else {
      assert (fs + [f])[1..] == fs[1..] + [f] && (fs + [f])[0] == fs[0];
      if fs[0].num > 1 {
        StringInTurn(fs[1..], f, sofar);
      } else if fs[0].LenField? && Utf8(fs[0].payload.data) {
        StringInTurn(fs[1..], f, fs[0].payload.data);
      }
    }
  }

  /** Of several results the last one counts, be it a value or an error. */
  lemma {:induction false} OneOfInTurn(fs: seq<Field>, f: Field, sofar: Option<Field>)
    requires sofar.Some? ==> sofar.value.LenField? && (sofar.value.num == 2 ==> Utf8(sofar.value.payload.data))
    ensures OneOf([], sofar) == Some(sofar)
    ensures var x, y := OneOf(fs, sofar), OneOf(fs + [f], sofar);
            if x.None? then y == None
            else if f.num > 2 then y == x
            else y == if f.LenField? && (f.num == 2 ==> Utf8(f.payload.data)) then Some(Some(f)) else None
    decreases fs
  {
    hide Utf8;
    if fs == [] {
      assert ([] + [f])[1..] == [];
    } else {
      assert (fs + [f])[1..] == fs[1..] + [f] && (fs + [f])[0] == fs[0];
      if fs[0].num > 2 {
        OneOfInTurn(fs[1..], f, sofar);
      } else if fs[0].LenField? && (fs[0].num == 2 ==> Utf8(fs[0].payload.data)) {
        OneOfInTurn(fs[1..], f, Some(fs[0]));
      }
    }
  }

  /** In the default codec every byte but 0 is true, and a wrong number of bytes is an error. */
  lemma {:induction false} DefaultBooleans(b: Byte, addr: nat)
    ensures DefaultCodec.Decode(Slice(addr, [b]), TBool) == Some(VBool(b != 0))
    ensures DefaultCodec.Decode(Slice(addr, []), TBool) == None
    ensures DefaultCodec.Decode(Slice(addr, [b]), TInt(U16)) == None
  {
  }
}
