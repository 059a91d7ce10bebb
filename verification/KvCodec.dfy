/** The byte format of key-value commands (inc/kv/kv_server.hpp): one operation byte, client id
    and sequence number in 8 bytes each, and key and value, each after its length in 4 bytes.
    Numbers are stored least significant byte first, as on the machines the program runs on. */
module KvCodec {
  import opened RaftTypes

  const TWO_TO_THE_32: nat := 0x1_0000_0000
  const TWO_TO_THE_64: nat := 0x1_0000_0000_0000_0000

  type U64 = n: nat | n < TWO_TO_THE_64

  datatype Op = Put | Get | Append
  datatype Record = Record(op: Op, client: U64, seqNum: U64, key: Bytes, value: Bytes)

  const HEADER: nat := 25

  function OpByte(op: Op): Byte {
    match op case Put => 0 case Get => 1 case Append => 2
  }

  // ----- numbers -----

  function Pow256(width: nat): nat {
    if width == 0 then 1 else 256 * Pow256(width - 1)
  }

  /** The lowest `width` bytes of n. */
  function ToBytes(n: nat, width: nat): (b: Bytes)
    ensures |b| == width
    decreases width, n
  {
    if width == 0 then [] else [n % 256] + ToBytes(n / 256, width - 1)
  }

  function FromBytes(b: Bytes): nat {
    if b == [] then 0 else b[0] + 256 * FromBytes(b[1..])
  }

  lemma {:induction false} NumberRoundTrip(n: nat, width: nat)
    requires n < Pow256(width)
    ensures FromBytes(ToBytes(n, width)) == n
    decreases width
  {
    if width > 0 {
      NumberRoundTrip(n / 256, width - 1);
      assert ToBytes(n, width)[1..] == ToBytes(n / 256, width - 1);
    }
  }

  lemma {:induction false} BytesRoundTrip(b: Bytes)
    ensures FromBytes(b) < Pow256(|b|) && ToBytes(FromBytes(b), |b|) == b
    decreases |b|
  {
    if b != [] {
      BytesRoundTrip(b[1..]);
    }
  }

  lemma Widths()
    ensures Pow256(4) == TWO_TO_THE_32 && Pow256(8) == TWO_TO_THE_64
  {
    assert Pow256(4) == 256 * (256 * (256 * (256 * Pow256(0))));
    assert Pow256(8) == 256 * (256 * (256 * (256 * Pow256(4))));
  }

  function Number(b: Bytes): (n: nat)
    requires |b| == 8
    ensures n < TWO_TO_THE_64
  {
    Widths();
    BytesRoundTrip(b);
    FromBytes(b)
  }

  // ----- the format -----

  /** The bytes of a record, laid out one field after the other. */
  function Encode(r: Record): (b: Bytes)
    ensures |b| == HEADER + |r.key| + |r.value|
  {
    [OpByte(r.op)] + (ToBytes(r.client, 8) + (ToBytes(r.seqNum, 8)
    + (ToBytes(|r.key|, 4) + (r.key + (ToBytes(|r.value|, 4) + r.value)))))
  }

  /** The size that `serialize` allocates, summed in 32 bits from lengths cut to 32 bits. */
  function AllocatedSize(keyLength: nat, valueLength: nat): nat {
    (HEADER + keyLength % TWO_TO_THE_32 + valueLength % TWO_TO_THE_32) % TWO_TO_THE_32
  }

  predicate Fits(r: Record) {
    HEADER + |r.key| + |r.value| < TWO_TO_THE_32
  }

  /** The buffer is as long as the record exactly when header, key and value fit in 32 bits. */
  lemma AllocationIsExact(r: Record)
    ensures AllocatedSize(|r.key|, |r.value|) == |Encode(r)| <==> Fits(r)
  {
    assert AllocatedSize(|r.key|, |r.value|) < TWO_TO_THE_32;
  }

  /** The lengths of key and value have room in their fields. */
  predicate Encodable(r: Record) {
    |r.key| < TWO_TO_THE_32 && |r.value| < TWO_TO_THE_32
  }

  function Decode(data: Bytes): Option<Record> {
    if |data| < HEADER || data[0] > 2 then None
    else
      var op := if data[0] == 0 then Put else if data[0] == 1 then Get else Append;
      var klen := FromBytes(data[17..21]);
      if 21 + klen + 4 > |data| then None
      else
        var vlen := FromBytes(data[21 + klen..25 + klen]);
        if 25 + klen + vlen > |data| then None
        else Some(Record(op, Number(data[1..9]), Number(data[9..17]), data[21..21 + klen],
                         data[25 + klen..25 + klen + vlen]))
  }

  /** A field and the rest lie at a position exactly when the field does and the rest follows. */
  lemma FieldThenRest(field: Bytes, rest: Bytes, data: Bytes, at: nat)
    requires at <= |data|
    ensures field + rest <= data[at..] <==>
            at + |field| <= |data| && data[at..at + |field|] == field && rest <= data[at + |field|..]
  {
    var n := at + |field|;
    if field + rest <= data[at..] {
      forall k | 0 <= k < |field| ensures data[at..n][k] == field[k] {
        assert (field + rest)[k] == data[at..][k];
      }
      forall k | 0 <= k < |rest| ensures data[n..][k] == rest[k] {
        assert (field + rest)[|field| + k] == data[at..][|field| + k];
      }
    } else if n <= |data| && rest <= data[n..] {
      assert data[at..] == data[at..n] + data[n..];
    }
  }

  predicate Laid(r: Record, data: Bytes)
    requires |data| >= HEADER + |r.key| + |r.value|
  {
    var k := |r.key|;
    && data[0] == OpByte(r.op) && data[1..9] == ToBytes(r.client, 8) && data[9..17] == ToBytes(r.seqNum, 8)
    && data[17..21] == ToBytes(k, 4) && data[21..21 + k] == r.key
    && data[21 + k..25 + k] == ToBytes(|r.value|, 4) && data[25 + k..25 + k + |r.value|] == r.value
  }

  /** Where key and value lie, each after its length. */
  lemma TailLayout(key: Bytes, length: Bytes, value: Bytes, data: Bytes)
    requires |length| == 4 && |data| >= HEADER + |key| + |value|
    ensures var k := |key|;
      key + (length + value) <= data[21..] <==>
      data[21..21 + k] == key && data[21 + k..25 + k] == length && data[25 + k..25 + k + |value|] == value
  {
    var k := |key|;
    FieldThenRest(key, length + value, data, 21);
    FieldThenRest(length, value, data, 21 + k);
    FieldThenRest(value, [], data, 25 + k);
    assert value + [] == value;
  }

  /** Where the fields of fixed size lie before them. */
  lemma HeadLayout(op: Byte, client: Bytes, seqNum: Bytes, length: Bytes, tail: Bytes, data: Bytes)
    requires |client| == |seqNum| == 8 && |length| == 4 && |data| >= 21
    ensures [op] + (client + (seqNum + (length + tail))) <= data <==>
            data[0] == op && data[1..9] == client && data[9..17] == seqNum && data[17..21] == length &&
              tail <= data[21..]
  {
    FieldThenRest([op], client + (seqNum + (length + tail)), data, 0);
    FieldThenRest(client, seqNum + (length + tail), data, 1);
    FieldThenRest(seqNum, length + tail, data, 9);
    FieldThenRest(length, tail, data, 17);
    assert data[0..] == data;
    assert data[0..1] == [data[0]];
  }

  /** Where the fields lie in data that begin with a record. */
  lemma Layout(r: Record, data: Bytes)
    ensures Encode(r) <= data <==> |data| >= HEADER + |r.key| + |r.value| && Laid(r, data)
  {
    if |data| >= HEADER + |r.key| + |r.value| {
      var keyLength, valueLength := ToBytes(|r.key|, 4), ToBytes(|r.value|, 4);
      HeadLayout(OpByte(r.op), ToBytes(r.client, 8), ToBytes(r.seqNum, 8), keyLength,
                 r.key + (valueLength + r.value), data);
      TailLayout(r.key, valueLength, r.value, data);
    }
  }

  /** Reading back: data that begin with a record decode to it, whatever follows. */
  lemma DecodeEncoded(r: Record, data: Bytes)
    requires Encodable(r) && Encode(r) <= data
    ensures Decode(data) == Some(r)
  {
    Widths();
    Layout(r, data);
    NumberRoundTrip(r.client, 8);
    NumberRoundTrip(r.seqNum, 8);
    NumberRoundTrip(|r.key|, 4);
    NumberRoundTrip(|r.value|, 4);
  }

  /** Whatever decodes begins with the bytes of the record it decodes to. */
  lemma EncodeDecoded(data: Bytes)
    requires Decode(data).Some?
    ensures Encodable(Decode(data).value) && Encode(Decode(data).value) <= data
  {
    var r := Decode(data).value;
    Widths();
    BytesRoundTrip(data[1..9]);
    BytesRoundTrip(data[9..17]);
    BytesRoundTrip(data[17..21]);
    BytesRoundTrip(data[21 + |r.key|..25 + |r.key|]);
    Layout(r, data);
  }

  /** Codec exactness: a record is decoded from the data that begin with its bytes, and from no other. */
  lemma DecodesExactly(r: Record, data: Bytes)
    ensures Decode(data) == Some(r) <==> Encodable(r) && Encode(r) <= data
  {
    if Encodable(r) && Encode(r) <= data {
      DecodeEncoded(r, data);
    }
    if Decode(data) == Some(r) {
      EncodeDecoded(data);
    }
  }

  /** No record's bytes begin another's. */
  lemma PrefixFree(r1: Record, r2: Record)
    requires Encodable(r1) && Encodable(r2) && Encode(r1) <= Encode(r2)
    ensures r1 == r2
  {
    DecodesExactly(r1, Encode(r2));
    DecodesExactly(r2, Encode(r2));
  }

  /** Four bytes from a position on, the least significant first. */
  function U32At(data: Bytes, at: nat): nat
    requires at + 4 <= |data|
  {
    var b0: nat, b1: nat, b2: nat, b3: nat := data[at], data[at + 1], data[at + 2], data[at + 3];
    b0 + 0x100 * b1 + 0x1_0000 * b2 + 0x100_0000 * b3
  }

  lemma FourBytes(b: Bytes)
    requires |b| == 4
    ensures FromBytes(b) == U32At(b, 0)
  {
    assert b[1..][1..] == b[2..] && b[2..][1..] == b[3..] && b[3..][1..] == [];
    assert FromBytes(b[3..]) == b[3] + 256 * FromBytes([]);
    assert FromBytes(b[2..]) == b[2] + 256 * FromBytes(b[3..]);
    assert FromBytes(b[1..]) == b[1] + 256 * FromBytes(b[2..]);
  }

  lemma EightBytes(b: Bytes)
    requires |b| == 8
    ensures FromBytes(b) == FromBytes(b[..4]) + TWO_TO_THE_32 * FromBytes(b[4..])
  {
    FourBytes(b[..4]);
    assert b[1..][1..] == b[2..] && b[2..][1..] == b[3..] && b[3..][1..] == b[4..];
    assert FromBytes(b[1..]) == b[1] + 256 * FromBytes(b[2..]);
    assert FromBytes(b[2..]) == b[2] + 256 * FromBytes(b[3..]);
    assert FromBytes(b[3..]) == b[3] + 256 * FromBytes(b[4..]);
  }

  /** The bytes of a record, one by one: 0, 1 or 2 for Put, Get and Append, then client id and
      sequence number, then key and value after their lengths. */
  lemma WireFormat(r: Record)
    requires Encodable(r)
    ensures var b, k := Encode(r), |r.key|;
      && (b[0] == if r.op.Put? then 0 else if r.op.Get? then 1 else 2)
      && r.client == U32At(b, 1) + TWO_TO_THE_32 * U32At(b, 5)
      && r.seqNum == U32At(b, 9) + TWO_TO_THE_32 * U32At(b, 13)
      && k == U32At(b, 17) && r.key == b[21..21 + k]
      && |r.value| == U32At(b, 21 + k) && r.value == b[25 + k..]
  {
    var b, k := Encode(r), |r.key|;
    DecodesExactly(r, b);
    EightBytes(b[1..9]);
    EightBytes(b[9..17]);
    FieldAt(b, 1, b[1..9][..4]);
    FieldAt(b, 5, b[1..9][4..]);
    FieldAt(b, 9, b[9..17][..4]);
    FieldAt(b, 13, b[9..17][4..]);
    FieldAt(b, 17, b[17..21]);
    FieldAt(b, 21 + k, b[21 + k..25 + k]);
  }

  lemma FieldAt(data: Bytes, at: nat, field: Bytes)
    requires at + 4 <= |data| && field == data[at..at + 4]
    ensures FromBytes(field) == U32At(data, at)
  {
    FourBytes(field);
  }

  // ----- the two procedures -----

  /** Copies `src` into the buffer from position `at` on. */
  method CopyBytes(buffer: array<Byte>, at: nat, src: Bytes)
    requires at + |src| <= buffer.Length
    modifies buffer
    ensures buffer[..] == old(buffer[..at]) + src + old(buffer[at + |src|..])
  {
    for k := 0 to |src|
      invariant buffer[..] == old(buffer[..at]) + src[..k] + old(buffer[at + k..])
    {
      buffer[at + k] := src[k];
    }
  }

  /** What is left of a record when the lengths of key and value are cut to 32 bits. */
  function CutTo32(r: Record): (c: Record)
    ensures Encodable(c)
    ensures c == r <==> Encodable(r)
  {
    r.(key := r.key[..|r.key| % TWO_TO_THE_32], value := r.value[..|r.value| % TWO_TO_THE_32])
  }

  /** The buffer holds all bytes that are written. */
  predicate InBuffer(r: Record) {
    HEADER + |r.key| % TWO_TO_THE_32 + |r.value| % TWO_TO_THE_32 <= AllocatedSize(|r.key|, |r.value|)
  }

  /** The buffer overflows exactly when the cut record itself does not fit in 32 bits. */
  lemma BufferIsEnough(r: Record)
    ensures InBuffer(r) <==> Fits(CutTo32(r))
  {
    var written := HEADER + |r.key| % TWO_TO_THE_32 + |r.value| % TWO_TO_THE_32;
    assert written < TWO_TO_THE_32 ==> written % TWO_TO_THE_32 == written;
    assert written % TWO_TO_THE_32 < TWO_TO_THE_32;
  }

  method Serialize(r: Record) returns (out: array<Byte>)
    requires InBuffer(r)
    ensures fresh(out) && out[..] == Encode(CutTo32(r))
  {
    var klen := |r.key| % TWO_TO_THE_32;
    var vlen := |r.value| % TWO_TO_THE_32;
    var total := (1 + 8 + 8 + 4 + klen + 4 + vlen) % TWO_TO_THE_32;
    BufferIsEnough(r);
    NothingWraps(klen, vlen);
    out := new Byte[total](_ => 0);
    var client, seqNum := ToBytes(r.client, 8), ToBytes(r.seqNum, 8);
    var keyLength, valueLength := ToBytes(klen, 4), ToBytes(vlen, 4);
    WriteFields(out, OpByte(r.op), client, seqNum, keyLength, r.key[..klen], valueLength, r.value[..vlen]);
  }

  lemma NothingWraps(klen: nat, vlen: nat)
    requires HEADER + klen + vlen < TWO_TO_THE_32
    ensures (HEADER + klen + vlen) % TWO_TO_THE_32 == HEADER + klen + vlen
  {
  }

  /** Writes seven fields one after the other. */
  method WriteFields(out: array<Byte>, op: Byte, client: Bytes, seqNum: Bytes, klen: Bytes, key: Bytes,
                     vlen: Bytes, value: Bytes)
    requires out.Length == 1 + |client| + |seqNum| + |klen| + |key| + |vlen| + |value|
    modifies out
    ensures out[..] == [op] + (client + (seqNum + (klen + (key + (vlen + value)))))
  {
    out[0] := op;
    assert out[..1] == [op];
    var p := PutField(out, 1, client);
    p := PutField(out, p, seqNum);
    p := PutField(out, p, klen);
    p := PutField(out, p, key);
    p := PutField(out, p, vlen);
    p := PutField(out, p, value);
    RightNested([op], client, seqNum, klen, key, vlen, value);
    assert out[..] == out[..p];
  }

  lemma RightNested(a: Bytes, b: Bytes, c: Bytes, d: Bytes, e: Bytes, f: Bytes, g: Bytes)
    ensures a + b + c + d + e + f + g == a + (b + (c + (d + (e + (f + g)))))
  {
    assert a + b + c + d + e + f + g == a + b + c + d + e + (f + g);
    assert a + b + c + d + e + (f + g) == a + b + c + d + (e + (f + g));
    assert a + b + c + d + (e + (f + g)) == a + b + c + (d + (e + (f + g)));
    assert a + b + c + (d + (e + (f + g))) == a + b + (c + (d + (e + (f + g))));
    assert a + b + (c + (d + (e + (f + g)))) == a + (b + (c + (d + (e + (f + g)))));
  }

  /** Copies a field to position p, unless it is empty, and moves on. */
  method PutField(out: array<Byte>, p: nat, field: Bytes) returns (next: nat)
    requires p + |field| <= out.Length
    modifies out
    ensures next == p + |field| && out[..next] == old(out[..p]) + field
  {
    if |field| != 0 {
      CopyBytes(out, p, field);
    }
    next := p + |field|;
  }

  /** Reads every field in bounds, for every input. */
  method Deserialize(data: Bytes) returns (r: Option<Record>)
    ensures r == Decode(data)
  {
    if |data| < 1 + 8 + 8 + 4 + 4 {
      return None;
    }
    var p, end := 0, |data|;
    var opByte := data[p];
    p := p + 1;
    if opByte > 2 {
      return None;
    }
    var op := if opByte == 0 then Put else if opByte == 1 then Get else Append;
    var client: U64 := Number(data[p..p + 8]);
    p := p + 8;
    var seqNum: U64 := Number(data[p..p + 8]);
    p := p + 8;
    var klen := FromBytes(data[p..p + 4]);
    p := p + 4;
    if p + klen + 4 > end {
      return None;
    }
    var key := data[p..p + klen];
    p := p + klen;
    var vlen := FromBytes(data[p..p + 4]);
    p := p + 4;
    if p + vlen > end {
      return None;
    }
    r := Some(Record(op, client, seqNum, key, data[p..p + vlen]));
  }
}
