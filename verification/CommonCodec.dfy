/**
 What both codecs share: `Option` and `Result` travel as protobuf messages whose only field
 holds the encoding of the part. These are the scanners over the fields of such a message.
 */
module CommonCodec {
  import opened Wire
  import opened Values

  /** The bytes of field `num` among length-delimited fields numbered up to `top`: the last
      occurrence wins, another wire type in that range is an error. */
  function BytesOf(fs: seq<Field>, num: nat, top: nat, sofar: Option<Slice> := None): (r: Option<Option<Slice>>)
    decreases fs
  {
    if fs == [] then Some(sofar)
    else if fs[0].num > top then BytesOf(fs[1..], num, top, sofar)
    else if !fs[0].LenField? then None
    else BytesOf(fs[1..], num, top, if fs[0].num == num then Some(fs[0].payload) else sofar)
  }

  /** The oneof of `Result`: field 1 bytes or field 2 string, the last occurrence wins. */
  function OneOf(fs: seq<Field>, sofar: Option<Field> := None): (r: Option<Option<Field>>)
    requires sofar.Some? ==> sofar.value.LenField? && (sofar.value.num == 2 ==> Utf8(sofar.value.payload.data))
    ensures r.Some? && r.value.Some? ==>
              r.value.value.LenField? && (r.value.value.num == 2 ==> Utf8(r.value.value.payload.data))
    decreases fs
  {
    if fs == [] then Some(sofar)
    else if fs[0].num > 2 then OneOf(fs[1..], sofar)
    else if !fs[0].LenField? || (fs[0].num == 2 && !Utf8(fs[0].payload.data)) then None
    else OneOf(fs[1..], Some(fs[0]))
  }

  lemma {:induction false} NoBytes()
    ensures BytesOf([], 1, 1) == Some(None)
  {
  }

  /** What the scanners make of a message with one field. */
  lemma {:induction false} OneBytes(p: Slice)
    ensures BytesOf([LenField(1, p)], 1, 1) == Some(Some(p))
    ensures OneOf([LenField(1, p)]) == Some(Some(LenField(1, p)))
    ensures OneOf([LenField(2, p)]) == if Utf8(p.data) then Some(Some(LenField(2, p))) else None
  {
  }

  /** A scanner returns a payload that is in the message. */
  lemma {:induction false} BytesFound(fs: seq<Field>, num: nat, top: nat, sofar: Option<Slice>)
    ensures var r := BytesOf(fs, num, top, sofar);
            r.Some? && r.value.Some? && r.value != sofar ==> LenField(num, r.value.value) in fs
    decreases fs
  {
    if fs != [] && (fs[0].num > top || fs[0].LenField?) {
      BytesFound(fs[1..], num, top, if fs[0].num == num && fs[0].num <= top then Some(fs[0].payload) else sofar);
    }
  }

  lemma {:induction false} OneOfFound(fs: seq<Field>, sofar: Option<Field>)
    requires sofar.Some? ==> sofar.value.LenField? && (sofar.value.num == 2 ==> Utf8(sofar.value.payload.data))
    ensures var r := OneOf(fs, sofar); r.Some? && r.value.Some? && r.value != sofar ==> r.value.value in fs
    decreases fs
  {
    if fs != [] && fs[0].num > 2 {
      OneOfFound(fs[1..], sofar);
    } else if fs != [] && fs[0].LenField? && (fs[0].num == 2 ==> Utf8(fs[0].payload.data)) {
      OneOfFound(fs[1..], Some(fs[0]));
    }
  }

  /** Every field up to number `top` is length-delimited. */
  predicate AllLen(fs: seq<Field>, top: nat) {
    forall i :: 0 <= i < |fs| && fs[i].num <= top ==> fs[i].LenField?
  }

  /** The payload of the last length-delimited field numbered `num`, searched from the back. */
  function LastOf(fs: seq<Field>, num: nat): Option<Slice>
    decreases fs
  {
    if fs == [] then None
    else
      var f := fs[|fs| - 1];
      if f.LenField? && f.num == num then Some(f.payload) else LastOf(fs[..|fs| - 1], num)
  }

  lemma {:induction false} LastOfMore(f: Field, fs: seq<Field>, num: nat)
    ensures LastOf([f] + fs, num) ==
            if LastOf(fs, num).Some? then LastOf(fs, num)
            else if f.LenField? && f.num == num then Some(f.payload) else None
    decreases fs
  {
    if fs == [] {
      assert [f] + fs == [f];
    } else {
      assert ([f] + fs)[..|fs|] == [f] + fs[..|fs| - 1];
      LastOfMore(f, fs[..|fs| - 1], num);
    }
  }

  /** The scanner fails exactly if a field up to `top` has another wire type; otherwise it finds
      the last field with the number, or keeps what it had if there is none. */
  lemma {:induction false} LastBytesWin(fs: seq<Field>, num: nat, top: nat, sofar: Option<Slice>)
    requires num <= top
    ensures BytesOf(fs, num, top, sofar) ==
            if !AllLen(fs, top) then None
            else if LastOf(fs, num).Some? then Some(LastOf(fs, num)) else Some(sofar)
    decreases fs
  {
    hide AllLen;
    if fs == [] {
      assert AllLen(fs, top) by { NoFields(top); }
    } else {
      var f, rest := fs[0], fs[1..];
      assert fs == [f] + rest;
      AllLenStep(f, rest, top);
      LastBytesWin(rest, num, top, if f.LenField? && f.num == num then Some(f.payload) else sofar);
      LastOfMore(f, rest, num);
    }
  }

  lemma {:induction false} NoFields(top: nat)
    ensures AllLen([], top)
  {
  }

  lemma {:induction false} AllLenStep(f: Field, fs: seq<Field>, top: nat)
    ensures AllLen([f] + fs, top) <==> (f.num <= top ==> f.LenField?) && AllLen(fs, top)
  {
    var gs := [f] + fs;
    assert forall i :: 0 <= i < |fs| ==> gs[i + 1] == fs[i];
    assert gs[0] == f;
  }

  /** A payload is shorter than its message by at least its key and its length prefix. */
  lemma {:induction false} PayloadFits(s: Slice, f: Field)
    requires var fs := ReadFields(s); fs.Some? && f in fs.value
    ensures f.LenField? ==> |f.payload.data| < TWO64 && LenRecordLen(|f.payload.data|) <= |s.data|
    decreases |s.data|
  {
    hide ReadField;
    var r := ReadField(s);
    var rest := s.Cut(r.used, |s.data| - r.used);
    if f != r.field { PayloadFits(rest, f); }
  }
}
