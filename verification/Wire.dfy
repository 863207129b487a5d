/**
 The Protocol Buffers wire format as far as the codecs use it: base 128 varints and
 records of a key followed by a varint, a fixed-width or a length-delimited payload.

 The writers are the byte sequences that the encoders append; the readers accept any
 byte sequence. A reader keeps the address of every length-delimited payload, because a
 payload is a view into the buffer it was cut from and one decoder looks at alignment.
 */
module Wire {
  datatype Option<+T> = None | Some(value: T)

  type Byte = b: int | 0 <= b < 256
  type Bytes = seq<Byte>

  const TWO32: nat := 0x1_0000_0000
  const TWO64: nat := 0x1_0000_0000_0000_0000

  /** A view of a buffer: the address of its first byte and the bytes. */
  datatype Slice = Slice(addr: nat, data: Bytes) {
    function Cut(from: nat, len: nat): Slice
      requires from + len <= |data|
    {
      Slice(addr + from, data[from..from + len])
    }
  }

  // ----- Base 128 varints -----

  function Varint(n: nat): (s: Bytes)
    ensures |s| == VarintLen(n)
  {
    if n < 128 then [n] else [n % 128 + 128] + Varint(n / 128)
  }

  function VarintLen(n: nat): (len: nat)
    ensures len >= 1
  {
    if n < 128 then 1 else 1 + VarintLen(n / 128)
  }

  /** A number that was read, with the bytes it took. */
  datatype Number = NoNumber | Number(value: nat, used: nat)

  /** One more than the largest value whose varint fits in the bytes `i..10`. */
  function Limit(i: nat): (n: nat)
    requires i <= 9
    ensures n >= 2 && (i < 9 ==> n >= 256)
    decreases 9 - i
  {
    if i == 9 then 2 else 128 * Limit(i + 1)
  }

  lemma {:induction false} LimitIsU64()
    ensures Limit(0) == TWO64
  {
  }

  /** Reads the rest of a varint of which `i` bytes are already read; a varint has at most
      ten bytes and the tenth carries one bit. */
  function ReadVarintFrom(s: Bytes, i: nat): (r: Number)
    requires i <= 10
    ensures r.Number? ==> i < 10 && 1 <= r.used <= |s|
    ensures r.Number? ==> r.value < Limit(i) && VarintLen(r.value) <= r.used
    decreases s
  {
    if s == [] || i == 10 then NoNumber
    else if s[0] < 128 then
      if i == 9 && s[0] >= 2 then NoNumber else Number(s[0], 1)
    else
      var r := ReadVarintFrom(s[1..], i + 1);
      if r.NoNumber? then NoNumber else Number(s[0] - 128 + 128 * r.value, r.used + 1)
  }

  function ReadVarint(s: Bytes): (r: Number)
    ensures r.Number? ==> 1 <= r.used <= |s|
    ensures r.Number? ==> r.value < TWO64 && VarintLen(r.value) <= r.used
  {
    LimitIsU64();
    ReadVarintFrom(s, 0)
  }

  lemma {:induction false} VarintRoundTripFrom(n: nat, rest: Bytes, i: nat)
    requires i <= 9 && n < Limit(i)
    ensures ReadVarintFrom(Varint(n) + rest, i) == Number(n, VarintLen(n))
    decreases 9 - i
  {
    var s := Varint(n) + rest;
    if n >= 128 {
      assert s[1..] == Varint(n / 128) + rest;
      VarintRoundTripFrom(n / 128, rest, i + 1);
    }
  }

  lemma {:induction false} VarintRoundTrip(n: nat, rest: Bytes)
    requires n < TWO64
    ensures ReadVarint(Varint(n) + rest) == Number(n, VarintLen(n))
  {
    LimitIsU64();
    VarintRoundTripFrom(n, rest, 0);
  }

  // ----- Keys and records -----

  /** The one-byte keys of length-delimited fields. */
  const LENGTH_DELIMITED_TAGS: seq<Byte> := [
    0x00, 0x0A, 0x12, 0x1A, 0x22, 0x2A, 0x32, 0x3A,
    0x42, 0x4A, 0x52, 0x5A, 0x62, 0x6A, 0x72, 0x7A]

  /** A byte below 128 is a varint of its own. */
  lemma {:induction false} ReadShort(b: Byte, tail: Bytes)
    requires b < 128
    ensures ReadVarint([b] + tail) == Number(b, 1)
  {
    assert ([b] + tail)[0] == b;
  }

  /** Every entry of the tag table is the key of its field with wire type 2. */
  lemma {:induction false} TagTable(field: nat, tail: Bytes)
    requires 1 <= field <= 15
    ensures ReadVarint([LENGTH_DELIMITED_TAGS[field]] + tail) == Number(field * 8 + 2, 1)
  {
    assert LENGTH_DELIMITED_TAGS[field] == field * 8 + 2;
    ReadShort(field * 8 + 2, tail);
  }

  datatype Field =
    | VarintField(num: nat, value: nat)
    | LenField(num: nat, payload: Slice)
    | FixedField(num: nat, wide: bool)

  /** A field that was read, with the bytes it took. */
  datatype Record = NoRecord | Record(field: Field, used: nat)

  /** The length prefix `n` bytes into a view, if the payload it announces is there. */
  function ReadLen(s: Slice, n: nat): (r: Number)
    requires n <= |s.data|
    ensures r.Number? ==> r.value < TWO64 && VarintLen(r.value) <= r.used
    ensures r.Number? ==> n + r.used + r.value <= |s.data|
  {
    var len := ReadVarint(s.data[n..]);
    if len.NoNumber? || |s.data| - n - len.used < len.value then NoNumber else len
  }

  /** The field with number `num` and the given wire type whose payload starts at `n`.
      Deprecated group records are rejected. */
  function ReadPayload(s: Slice, num: nat, wireType: nat, n: nat): (r: Record)
    requires 1 <= n <= |s.data|
    ensures r.Record? ==> n <= r.used <= |s.data| && r.field.num == num
    ensures r.Record? && r.field.LenField? ==>
              var len := |r.field.payload.data|;
              len < TWO64 && n + VarintLen(len) + len <= r.used
  {
    match wireType
    case 0 =>
      var v := ReadVarint(s.data[n..]);
      if v.NoNumber? then NoRecord else Record(VarintField(num, v.value), n + v.used)
    case 1 => if |s.data| < n + 8 then NoRecord else Record(FixedField(num, true), n + 8)
    case 2 =>
      var len := ReadLen(s, n);
      if len.NoNumber? then NoRecord
      else Record(LenField(num, s.Cut(n + len.used, len.value)), n + len.used + len.value)
    case 5 => if |s.data| < n + 4 then NoRecord else Record(FixedField(num, false), n + 4)
    case _ => NoRecord
  }

  /** The first field of a view. */
  function ReadField(s: Slice): (r: Record)
    ensures r.Record? ==> 1 <= r.used <= |s.data|
    ensures r.Record? && r.field.LenField? ==>
              var len := |r.field.payload.data|;
              len < TWO64 && LenRecordLen(len) <= r.used
  {
    var key := ReadVarint(s.data);
    if key.NoNumber? || key.value >= TWO32 || key.value / 8 == 0 then NoRecord
    else ReadPayload(s, key.value / 8, key.value % 8, key.used)
  }

  /** All the fields of a message, in order. */
  function ReadFields(s: Slice): (r: Option<seq<Field>>)
    decreases |s.data|
  {
    if s.data == [] then Some([])
    else
      var f := ReadField(s);
      if f.NoRecord? then None
      else
        var tail := ReadFields(s.Cut(f.used, |s.data| - f.used));
        if tail.None? then None else Some([f.field] + tail.value)
  }

  /** A length-delimited record as the encoders write it; the prefix is computed before the
      payload, so it is a parameter of its own. */
  function LenRecord(field: nat, prefix: nat, payload: Bytes): (s: Bytes)
    requires 1 <= field <= 15
    ensures |s| == 1 + VarintLen(prefix) + |payload|
  {
    [LENGTH_DELIMITED_TAGS[field]] + Varint(prefix) + payload
  }

  /** The length of a record with a payload of `len` bytes. */
  function LenRecordLen(len: nat): nat {
    PayloadOffset(len) + len
  }

  /** Where the payload of a record starts, relative to the record. */
  function PayloadOffset(len: nat): nat {
    1 + VarintLen(len)
  }

  lemma {:induction false} ReadLenAt(s: Slice, n: nat, payload: Bytes, rest: Bytes)
    requires n <= |s.data| && |payload| < TWO64
    requires s.data[n..] == Varint(|payload|) + payload + rest
    ensures ReadLen(s, n) == Number(|payload|, VarintLen(|payload|))
  {
    assert Varint(|payload|) + payload + rest == Varint(|payload|) + (payload + rest);
    VarintRoundTrip(|payload|, payload + rest);
  }

  lemma {:induction false} ReadLenRecord(addr: nat, field: nat, payload: Bytes, rest: Bytes)
    requires 1 <= field <= 15 && |payload| < TWO64
    ensures ReadField(Slice(addr, LenRecord(field, |payload|, payload) + rest))
         == Record(LenField(field, Slice(addr + PayloadOffset(|payload|), payload)), LenRecordLen(|payload|))
  {
    hide ReadVarint, ReadLen, Varint, VarintLen;
    var tail := Varint(|payload|) + payload + rest;
    var s := Slice(addr, LenRecord(field, |payload|, payload) + rest);
    assert s.data == [LENGTH_DELIMITED_TAGS[field]] + tail;
    TagTable(field, tail);
    ReadLenAt(s, 1, payload, rest);
    var from := PayloadOffset(|payload|);
    assert s.data[from..from + |payload|] == payload;
  }

  /** Puts a field before the fields of the rest of a message. */
  function Prepend(f: Field, rest: Option<seq<Field>>): Option<seq<Field>> {
    if rest.None? then None else Some([f] + rest.value)
  }

  lemma {:induction false} ReadNothing(addr: nat)
    ensures ReadFields(Slice(addr, [])) == Some([])
  {
  }

  lemma {:induction false} ReadFieldsEnd(f: Field, addr: nat)
    ensures Prepend(f, ReadFields(Slice(addr, []))) == Some([f])
  {
    assert [f] + [] == [f];
  }

  lemma {:induction false} ReadFieldsStep(s: Slice, f: Field, rest: Slice)
    requires rest.addr >= s.addr
    requires ReadField(s) == Record(f, rest.addr - s.addr)
    requires s.data[rest.addr - s.addr..] == rest.data
    ensures ReadFields(s) == Prepend(f, ReadFields(rest))
  {
    hide ReadField;
    var n := rest.addr - s.addr;
    assert s.Cut(n, |s.data| - n) == rest;
  }

  lemma {:induction false} ReadLenRecordThen(addr: nat, field: nat, payload: Bytes, rest: Bytes)
    requires 1 <= field <= 15 && |payload| < TWO64
    ensures ReadFields(Slice(addr, LenRecord(field, |payload|, payload) + rest))
         == Prepend(LenField(field, Slice(addr + PayloadOffset(|payload|), payload)),
                    ReadFields(Slice(addr + LenRecordLen(|payload|), rest)))
  {
    hide ReadFields, ReadField;
    var s := LenRecord(field, |payload|, payload) + rest;
    ReadLenRecord(addr, field, payload, rest);
    var n := LenRecordLen(|payload|);
    assert s[n..] == rest;
    ReadFieldsStep(Slice(addr, s), LenField(field, Slice(addr + PayloadOffset(|payload|), payload)),
                   Slice(addr + n, rest));
  }

  /** A message of one length-delimited record reads back as that one field. */
  lemma {:induction false} ReadOneRecord(addr: nat, field: nat, payload: Bytes)
    requires 1 <= field <= 15 && |payload| < TWO64
    ensures ReadFields(Slice(addr, LenRecord(field, |payload|, payload)))
         == Some([LenField(field, Slice(addr + PayloadOffset(|payload|), payload))])
  {
    ReadLenRecordThen(addr, field, payload, []);
    assert LenRecord(field, |payload|, payload) + [] == LenRecord(field, |payload|, payload);
    ReadFieldsEnd(LenField(field, Slice(addr + PayloadOffset(|payload|), payload)), addr + LenRecordLen(|payload|));
  }

  /** The scalar wrapper messages write field 1 as a varint. */
  function VarintRecord(v: nat): (s: Bytes) {
    [0x08] + Varint(v)
  }

  lemma {:induction false} ReadVarintRecord(addr: nat, v: nat)
    requires v < TWO64
    ensures ReadFields(Slice(addr, VarintRecord(v))) == Some([VarintField(1, v)])
  {
    var s := Slice(addr, VarintRecord(v));
    ReadShort(8, Varint(v));
    assert s.data[1..] == Varint(v) + [];
    VarintRoundTrip(v, []);
    ReadFieldsStep(s, VarintField(1, v), Slice(addr + |s.data|, []));
    ReadFieldsEnd(VarintField(1, v), addr + |s.data|);
  }

  // ----- Messages of numbered records -----

  /** The records of `ps[k..]`; part `i` is field `i + 1`. */
  function Records(ps: seq<Bytes>, k: nat): (s: Bytes)
    requires k <= |ps| <= 10
    decreases |ps| - k
  {
    if k == |ps| then [] else LenRecord(k + 1, |ps[k]|, ps[k]) + Records(ps, k + 1)
  }

  /** Where part `i` lies when the records from `k` on start at `addr`. */
  function RecordAt(ps: seq<Bytes>, k: nat, addr: nat, i: nat): Slice
    requires k <= i < |ps|
    decreases |ps| - k
  {
    if i == k then Slice(addr + PayloadOffset(|ps[k]|), ps[k])
    else RecordAt(ps, k + 1, addr + LenRecordLen(|ps[k]|), i)
  }

  function RecordFields(ps: seq<Bytes>, k: nat, addr: nat): (fs: seq<Field>)
    requires k <= |ps|
    decreases |ps| - k
  {
    if k == |ps| then []
    else [LenField(k + 1, Slice(addr + PayloadOffset(|ps[k]|), ps[k]))]
         + RecordFields(ps, k + 1, addr + LenRecordLen(|ps[k]|))
  }

  lemma {:induction false} ReadRecordBefore(addr: nat, field: nat, payload: Bytes, rest: Bytes, fs: seq<Field>)
    requires 1 <= field <= 15 && |payload| < TWO64
    requires ReadFields(Slice(addr + LenRecordLen(|payload|), rest)) == Some(fs)
    ensures ReadFields(Slice(addr, LenRecord(field, |payload|, payload) + rest))
         == Some([LenField(field, Slice(addr + PayloadOffset(|payload|), payload))] + fs)
  {
    ReadLenRecordThen(addr, field, payload, rest);
  }

  lemma {:induction false} ReadRecords(ps: seq<Bytes>, k: nat, addr: nat)
    requires k <= |ps| <= 10 && |Records(ps, k)| < TWO64
    ensures ReadFields(Slice(addr, Records(ps, k))) == Some(RecordFields(ps, k, addr))
    decreases |ps| - k
  {
    hide ReadField;
    if k < |ps| {
      var next := addr + LenRecordLen(|ps[k]|);
      ReadRecords(ps, k + 1, next);
      ReadRecordBefore(addr, k + 1, ps[k], Records(ps, k + 1), RecordFields(ps, k + 1, next));
    }
  }

  lemma {:induction false} RecordIsPart(ps: seq<Bytes>, k: nat, addr: nat, i: nat)
    requires k <= i < |ps| <= 10
    ensures RecordAt(ps, k, addr, i).data == ps[i]
    ensures |ps[i]| <= |Records(ps, k)|
    decreases |ps| - k
  {
    hide LenRecord, VarintLen;
    if k < i { RecordIsPart(ps, k + 1, addr + LenRecordLen(|ps[k]|), i); }
  }
}
