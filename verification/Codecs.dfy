/**
 The two codecs behind one interface. Which one a process uses is a choice of its build; both
 ends of a connection must have made the same one.
 */
module Codecs {
  import opened Wire
  import opened Values
  import ProstCodec
  import DefaultCodec

  datatype Kind = Default | Prost

  function Encoding(kind: Kind, v: Value, ty: Ty): Bytes
    requires Typed(v, ty)
  {
    match kind
    case Default => DefaultCodec.Encoding(v, ty)
    case Prost => ProstCodec.Encoding(v, ty)
  }

  function EncodedLen(kind: Kind, v: Value, ty: Ty): nat
    requires Typed(v, ty)
  {
    match kind
    case Default => DefaultCodec.EncodedLen(v, ty)
    case Prost => ProstCodec.EncodedLen(v, ty)
  }

  function Decode(kind: Kind, s: Slice, ty: Ty): Option<Value> {
    match kind
    case Default => DefaultCodec.Decode(s, ty)
    case Prost => ProstCodec.Decode(s, ty)
  }

  /** Every length that the codec writes is written in full. */
  predicate Fits(kind: Kind, v: Value, ty: Ty) {
    Typed(v, ty) && EncodedLen(kind, v, ty) < TWO64 && (kind.Default? ==> DefaultCodec.FramesFit(v, ty))
  }

  /** The encoding can be read where it lands: the default codec reads vectors in place. */
  predicate Lands(kind: Kind, v: Value, ty: Ty, addr: nat)
    requires Typed(v, ty)
  {
    kind.Default? ==> DefaultCodec.Aligned(v, ty, addr)
  }

  /** Whichever the codec, a value that fits comes back if its bytes land well, and otherwise
      decoding is an error, never another value. */
  lemma {:induction false} RoundTrip(kind: Kind, v: Value, ty: Ty, addr: nat)
    requires Fits(kind, v, ty)
    ensures Decode(kind, Slice(addr, Encoding(kind, v, ty)), ty) == if Lands(kind, v, ty, addr) then Some(v) else None
  {
    hide DefaultCodec.Decode, DefaultCodec.Encoding, DefaultCodec.EncodedLen, DefaultCodec.Aligned, DefaultCodec.FramesFit;
    hide ProstCodec.Decode, ProstCodec.Encoding, ProstCodec.EncodedLen, Typed;
    match kind
    case Default => DefaultCodec.FittingRoundTrip(v, ty, addr);
    case Prost => ProstCodec.RoundTrip(v, ty, addr);
  }
}
