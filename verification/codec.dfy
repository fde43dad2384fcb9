/** The binary frames of protocol V2 (`codec.py`). */
module Codec {
  import opened Wrappers
  import opened Utf8

  datatype Error =
    | EmptyFrame | UnknownKind | TruncatedHeader | TruncatedFields | InvalidText | EmptyTopic | EmptyEvent
    | ControlEvent | OversizedField

  datatype Result<+T> = Ok(value: T) | Err(error: Error)

  datatype Kind = Push | Reply | Broadcast

  datatype Message = Message(joinRef: Option<Text>, ref: Option<Text>, topic: Text, event: Text, payload: Bytes)

  datatype Decoded = Decoded(message: Message, status: Option<Text>)

  // "phx_join", "phx_leave", "phx_reply", "phoenix" and "heartbeat"
  const PHX_JOIN: Text := [112, 104, 120, 95, 106, 111, 105, 110]
  const PHX_LEAVE: Text := [112, 104, 120, 95, 108, 101, 97, 118, 101]
  const PHX_REPLY: Text := [112, 104, 120, 95, 114, 101, 112, 108, 121]
  const PHOENIX: Text := [112, 104, 111, 101, 110, 105, 120]
  const HEARTBEAT: Text := [104, 101, 97, 114, 116, 98, 101, 97, 116]

  function KindByte(kind: Kind): Byte {
    match kind case Push => 0 case Reply => 1 case Broadcast => 2
  }

  function KindOf(b: Byte): Option<Kind> {
    if b == 0 then Some(Push) else if b == 1 then Some(Reply) else if b == 2 then Some(Broadcast) else None
  }

  function FieldCount(kind: Kind): nat {
    match kind case Push => 3 case Reply => 4 case Broadcast => 2
  }

  function Sum(sizes: Bytes): nat {
    if sizes == [] then 0 else var size: int := sizes[0]; size + Sum(sizes[1..])
  }

  /** The loop of `_binary_fields`: one text per size, cut from the front. */
  function Fields(sizes: Bytes, body: Bytes): Result<seq<Text>>
    requires Sum(sizes) <= |body|
  {
    if sizes == [] then Ok([])
    else
      var head := Decode(body[..sizes[0]]);
      if head.None? then Err(InvalidText)
      else
        var rest := Fields(sizes[1..], body[sizes[0]..]);
        if rest.Err? then rest else Ok([head.value] + rest.value)
  }

  /** `_binary_fields` */
  function BinaryFields(raw: Bytes, count: nat): Result<(seq<Text>, Bytes)>
    requires raw != []
  {
    if |raw| < 1 + count then Err(TruncatedHeader)
    else
      var sizes, body := raw[1..1 + count], raw[1 + count..];
      if |body| < Sum(sizes) then Err(TruncatedFields)
      else
        var fields := Fields(sizes, body);
        if fields.Err? then Err(fields.error) else Ok((fields.value, body[Sum(sizes)..]))
  }

  function Present(text: Text): Option<Text> {
    if text == [] then None else Some(text)
  }

  function Absent(text: Option<Text>): Text {
    if text.None? then [] else text.value
  }

  /** `_decode_binary` once the fields are known; topic and event must not be empty. */
  function Assemble(kind: Kind, fields: seq<Text>, payload: Bytes): Result<Decoded>
    requires |fields| == FieldCount(kind)
  {
    var (joinRef, ref, topic, event, status) :=
      match kind
      case Push => (Present(fields[0]), None, fields[1], fields[2], None)
      case Reply => (Present(fields[0]), Present(fields[1]), fields[2], PHX_REPLY, Some(fields[3]))
      case Broadcast => (None, None, fields[0], fields[1], None);
    if topic == [] then Err(EmptyTopic)
    else if event == [] then Err(EmptyEvent)
    else Ok(Decoded(Message(joinRef, ref, topic, event, payload), status))
  }

  function DecodeBinary(raw: Bytes): Result<Decoded> {
    if raw == [] then Err(EmptyFrame)
    else if KindOf(raw[0]).None? then Err(UnknownKind)
    else
      var kind := KindOf(raw[0]).value;
      var parsed := BinaryFields(raw, FieldCount(kind));
      if parsed.Err? then Err(parsed.error)
      else
        FieldsMany(raw[1..1 + FieldCount(kind)], raw[1 + FieldCount(kind)..]);
        Assemble(kind, parsed.value.0, parsed.value.1)
  }

  lemma {:induction false} FieldsMany(sizes: Bytes, body: Bytes)
    requires Sum(sizes) <= |body|
    ensures Fields(sizes, body).Ok? ==> |Fields(sizes, body).value| == |sizes|
  {
    if sizes != [] {
      FieldsMany(sizes[1..], body[sizes[0]..]);
    }
  }

  // The encoders

  function Encoded(fields: seq<Text>): seq<Bytes> {
    if fields == [] then [] else [Encode(fields[0])] + Encoded(fields[1..])
  }

  function Joined(parts: seq<Bytes>): Bytes {
    if parts == [] then [] else parts[0] + Joined(parts[1..])
  }

  predicate Fits(parts: seq<Bytes>) {
    forall i :: 0 <= i < |parts| ==> |parts[i]| < 256
  }

  function Sizes(parts: seq<Bytes>): (sizes: Bytes)
    requires Fits(parts)
    ensures |sizes| == |parts|
  {
    if parts == [] then [] else [|parts[0]|] + Sizes(parts[1..])
  }

  /** A frame as the server lays it out: kind, one size per field, the fields, the payload. */
  function Frame(kind: Byte, fields: seq<Text>, payload: Bytes): Bytes
    requires Fits(Encoded(fields))
  {
    [kind] + Sizes(Encoded(fields)) + Joined(Encoded(fields)) + payload
  }

  predicate IsControl(m: Message) {
    m.event == PHX_JOIN || m.event == PHX_LEAVE || (m.topic == PHOENIX && m.event == HEARTBEAT)
  }

  function PushFields(m: Message): seq<Text> {
    [Absent(m.joinRef), Absent(m.ref), m.topic, m.event]
  }

  /** `_encode_binary` */
  function EncodeBinary(m: Message): Result<Bytes> {
    if IsControl(m) then Err(ControlEvent)
    else if !Fits(Encoded(PushFields(m))) then Err(OversizedField)
    else Ok(Frame(0, PushFields(m), m.payload))
  }

  /** The server's parser of client pushes: always four fields. */
  function ParseClientPush(raw: Bytes): Result<Message> {
    if raw == [] || raw[0] != 0 then Err(UnknownKind)
    else
      var parsed := BinaryFields(raw, 4);
      if parsed.Err? then Err(parsed.error)
      else
        FieldsMany(raw[1..5], raw[5..]);
        var f := parsed.value.0;
        Ok(Message(Present(f[0]), Present(f[1]), f[2], f[3], parsed.value.1))
  }

  // Parsing inverts laying out

  lemma {:induction false} SizesSum(parts: seq<Bytes>)
    requires Fits(parts)
    ensures Sum(Sizes(parts)) == |Joined(parts)|
  {
    if parts != [] {
      SizesSum(parts[1..]);
      assert Sizes(parts)[1..] == Sizes(parts[1..]);
    }
  }

  lemma FieldsStep(head: Bytes, sizes: Bytes, body: Bytes, text: Text)
    requires |head| < 256 && Sum(sizes) <= |body| && Decode(head) == Some(text)
    ensures Sum([|head|] + sizes) == |head| + Sum(sizes) <= |head + body|
    ensures Fields([|head|] + sizes, head + body)
            == (var rest := Fields(sizes, body); if rest.Err? then rest else Ok([text] + rest.value))
  {
    hide Decode;
    assert ([|head|] + sizes)[1..] == sizes;
    assert (head + body)[..|head|] == head && (head + body)[|head|..] == body;
  }

  lemma EncodedFirst(fields: seq<Text>)
    requires fields != [] && Fits(Encoded(fields))
    ensures Fits(Encoded(fields[1..])) && |Encode(fields[0])| < 256
    ensures Sizes(Encoded(fields)) == [|Encode(fields[0])|] + Sizes(Encoded(fields[1..]))
    ensures Joined(Encoded(fields)) == Encode(fields[0]) + Joined(Encoded(fields[1..]))
  {
    hide Encode;
    var parts := Encoded(fields);
    assert parts[0] == Encode(fields[0]) && parts[1..] == Encoded(fields[1..]);
  }

  lemma {:induction false} FieldsInvert(fields: seq<Text>, payload: Bytes)
    requires Fits(Encoded(fields))
    ensures Sum(Sizes(Encoded(fields))) == |Joined(Encoded(fields))|
    ensures Fields(Sizes(Encoded(fields)), Joined(Encoded(fields)) + payload) == Ok(fields)
  {
    hide Encode, Decode;
    SizesSum(Encoded(fields));
    if fields != [] {
      EncodedFirst(fields);
      hide Fields, Sizes, Joined, Encoded, Sum, Fits;
      FieldsInvert(fields[1..], payload);
      DecodeEncode(fields[0]);
      var head, rest := Encode(fields[0]), Joined(Encoded(fields[1..]));
      FieldsStep(head, Sizes(Encoded(fields[1..])), rest + payload, fields[0]);
      assert head + (rest + payload) == (head + rest) + payload;
      assert [fields[0]] + fields[1..] == fields;
    }
  }

  lemma EncodedMany(fields: seq<Text>)
    ensures |Encoded(fields)| == |fields|
  {
  }

  lemma FrameParts(kind: Byte, sizes: Bytes, joined: Bytes, payload: Bytes)
    ensures
      var raw := [kind] + sizes + joined + payload;
      && |raw| == 1 + |sizes| + |joined + payload|
      && raw[1..1 + |sizes|] == sizes && raw[1 + |sizes|..] == joined + payload
      && (joined + payload)[|joined|..] == payload
  {
  }

  lemma BinaryFieldsInvert(kind: Byte, fields: seq<Text>, payload: Bytes)
    requires Fits(Encoded(fields))
    ensures BinaryFields(Frame(kind, fields, payload), |fields|) == Ok((fields, payload))
  {
    hide Encoded, Joined, Sizes, Sum, Fields, Fits;
    EncodedMany(fields);
    FieldsInvert(fields, payload);
    FrameParts(kind, Sizes(Encoded(fields)), Joined(Encoded(fields)), payload);
  }

  /** Decoding inverts the server's encoder for every layout; empty refs come back as absent. */
  lemma DecodeInvertsServer(kind: Kind, fields: seq<Text>, payload: Bytes)
    requires |fields| == FieldCount(kind) && Fits(Encoded(fields))
    ensures DecodeBinary(Frame(KindByte(kind), fields, payload)) == Assemble(kind, fields, payload)
  {
    hide Assemble, BinaryFields;
    BinaryFieldsInvert(KindByte(kind), fields, payload);
  }

  /** The three layouts, spelled out. */
  lemma ServerLayouts(joinRef: Text, ref: Text, topic: Text, event: Text, status: Text, payload: Bytes)
    requires topic != [] && event != []
    requires Fits(Encoded([joinRef, topic, event])) && Fits(Encoded([joinRef, ref, topic, status])) && Fits(Encoded([topic, event]))
    ensures DecodeBinary(Frame(0, [joinRef, topic, event], payload))
            == Ok(Decoded(Message(Present(joinRef), None, topic, event, payload), None))
    ensures DecodeBinary(Frame(1, [joinRef, ref, topic, status], payload))
            == Ok(Decoded(Message(Present(joinRef), Present(ref), topic, Characters("phx_reply"), payload), Some(status)))
    ensures DecodeBinary(Frame(2, [topic, event], payload)) == Ok(Decoded(Message(None, None, topic, event, payload), None))
  {
    hide DecodeBinary, Frame, Encoded, Fits, Characters;
    ReservedNames();
    DecodeInvertsServer(Push, [joinRef, topic, event], payload);
    DecodeInvertsServer(Reply, [joinRef, ref, topic, status], payload);
    DecodeInvertsServer(Broadcast, [topic, event], payload);
  }

  /** The code points of an ASCII string. */
  function Characters(s: string): (t: seq<int>)
    ensures |t| == |s| && forall i :: 0 <= i < |s| ==> t[i] == s[i] as int
  {
    seq(|s|, i requires 0 <= i < |s| => s[i] as int)
  }

  lemma ReservedNames()
    ensures PHX_JOIN == Characters("phx_join") && PHX_LEAVE == Characters("phx_leave") && PHX_REPLY == Characters("phx_reply")
    ensures PHOENIX == Characters("phoenix") && HEARTBEAT == Characters("heartbeat")
  {
  }

  /** What the client refuses to send as a binary push: its own join, leave and heartbeat, and fields of more than 255 bytes. */
  lemma OnlySendableIsEncoded(m: Message)
    ensures EncodeBinary(m).Ok? <==>
      && m.event != Characters("phx_join") && m.event != Characters("phx_leave")
      && (m.topic == Characters("phoenix") ==> m.event != Characters("heartbeat"))
      && |Encode(Absent(m.joinRef))| <= 255 && |Encode(Absent(m.ref))| <= 255 && |Encode(m.topic)| <= 255 && |Encode(m.event)| <= 255
  {
    hide Characters, Encode, Frame;
    ReservedNames();
    var parts := Encoded(PushFields(m));
    FourEncoded(Absent(m.joinRef), Absent(m.ref), m.topic, m.event);
    if EncodeBinary(m).Ok? {
      assert |parts[0]| < 256 && |parts[1]| < 256 && |parts[2]| < 256 && |parts[3]| < 256;
    }
  }

  lemma FourEncoded(a: Text, b: Text, c: Text, d: Text)
    ensures Encoded([a, b, c, d]) == [Encode(a), Encode(b), Encode(c), Encode(d)]
  {
    hide Encode;
    assert [a, b, c, d][1..] == [b, c, d] && [b, c, d][1..] == [c, d] && [c, d][1..] == [d] && [d][1..] == [];
    assert Encoded([d]) == [Encode(d)] + Encoded([]);
    assert Encoded([c, d]) == [Encode(c)] + Encoded([d]);
    assert Encoded([b, c, d]) == [Encode(b)] + Encoded([c, d]);
  }

  predicate SameRefs(m: Message, n: Message) {
    && Absent(m.joinRef) == Absent(n.joinRef) && Absent(m.ref) == Absent(n.ref)
    && m.topic == n.topic && m.event == n.event && m.payload == n.payload
  }

  /** What the client sends, the server reads back, an empty ref counting as an absent one. */
  lemma ServerReadsClient(m: Message)
    requires EncodeBinary(m).Ok?
    ensures ParseClientPush(EncodeBinary(m).value).Ok?
    ensures SameRefs(ParseClientPush(EncodeBinary(m).value).value, m)
  {
    hide BinaryFields;
    BinaryFieldsInvert(0, PushFields(m), m.payload);
  }

  // Laying out inverts parsing

  lemma {:induction false} FieldsPartition(sizes: Bytes, body: Bytes)
    requires Sum(sizes) <= |body| && Fields(sizes, body).Ok?
    ensures
      var fields := Fields(sizes, body).value;
      && Fits(Encoded(fields)) && Sizes(Encoded(fields)) == sizes && Joined(Encoded(fields)) == body[..Sum(sizes)]
  {
    hide Decode, Encode;
    if sizes != [] {
      var n := sizes[0];
      FieldsPartition(sizes[1..], body[n..]);
      EncodeDecode(body[..n]);
      var fields := Fields(sizes, body).value;
      assert fields[1..] == Fields(sizes[1..], body[n..]).value;
      assert Encoded(fields)[1..] == Encoded(fields[1..]);
      assert body[..Sum(sizes)] == body[..n] + body[n..][..Sum(sizes[1..])];
    }
  }

  /** An accepted frame is exactly its kind, sizes, fields and payload, nothing more or less. */
  lemma AcceptedFramePartitions(raw: Bytes, count: nat)
    requires raw != [] && BinaryFields(raw, count).Ok?
    ensures
      var (fields, payload) := BinaryFields(raw, count).value;
      Fits(Encoded(fields)) && Frame(raw[0], fields, payload) == raw
  {
    hide Fields, Encoded, Joined, Sizes, Sum, Fits;
    var sizes, body := raw[1..1 + count], raw[1 + count..];
    FieldsPartition(sizes, body);
    Reassembled(raw, count, Sum(sizes));
  }

  lemma Reassembled(raw: Bytes, count: nat, n: nat)
    requires 1 + count + n <= |raw|
    ensures
      var body := raw[1 + count..];
      [raw[0]] + raw[1..1 + count] + body[..n] + body[n..] == raw
  {
  }

  /** A frame cut anywhere before the end of its last field is rejected. */
  lemma CutHeaderIsRejected(raw: Bytes, n: nat)
    requires DecodeBinary(raw).Ok?
    requires
      var count := FieldCount(KindOf(raw[0]).value);
      n < 1 + count + Sum(raw[1..1 + count])
    ensures n <= |raw| && DecodeBinary(raw[..n]).Err?
  {
    var count := FieldCount(KindOf(raw[0]).value);
    if n >= 1 + count {
      assert raw[..n][1..1 + count] == raw[1..1 + count];
    }
  }

  // The loop itself

  function After(fields: seq<Text>, rest: Result<seq<Text>>): Result<seq<Text>> {
    if rest.Err? then rest else Ok(fields + rest.value)
  }

  lemma NothingBefore(rest: Result<seq<Text>>)
    ensures After([], rest) == rest
  {
    if rest.Ok? {
      assert [] + rest.value == rest.value;
    }
  }

  /** One turn of the loop over the remaining sizes. */
  lemma TakeField(sizes: Bytes, body: Bytes, i: nat, offset: nat, fields: seq<Text>)
    requires i < |sizes| && offset <= |body| && Sum(sizes[i..]) <= |body| - offset
    ensures
      var size: int := sizes[i];
      && Sum(sizes[i..]) == size + Sum(sizes[i + 1..]) && offset + size <= |body|
      && var field := Decode(body[offset..offset + size]);
         After(fields, Fields(sizes[i..], body[offset..]))
         == if field.None? then Err(InvalidText)
            else After(fields + [field.value], Fields(sizes[i + 1..], body[offset + size..]))
  {
    var size: int := sizes[i];
    assert sizes[i..][1..] == sizes[i + 1..];
    assert body[offset..][size..] == body[offset + size..] && body[offset..][..size] == body[offset..offset + size];
    var rest := Fields(sizes[i + 1..], body[offset + size..]);
    var field := Decode(body[offset..offset + size]);
    if field.Some? && rest.Ok? {
      assert fields + ([field.value] + rest.value) == (fields + [field.value]) + rest.value;
    }
  }

  /** `_binary_fields` as it runs, with its moving offset. */
  method ParseBinaryFields(raw: Bytes, count: nat) returns (result: Result<(seq<Text>, Bytes)>)
    requires raw != []
    ensures result == BinaryFields(raw, count)
  {
    hide Decode, Fields, Sum, After;
    var headerEnd := 1 + count;
    if |raw| < headerEnd {
      return Err(TruncatedHeader);
    }
    var sizes, body := raw[1..headerEnd], raw[headerEnd..];
    if |raw| < headerEnd + Sum(sizes) {
      return Err(TruncatedFields);
    }
    var fields: seq<Text> := [];
    var offset, i := 0, 0;
    assert sizes[0..] == sizes && body[0..] == body;
    NothingBefore(Fields(sizes, body));
    while i < count
      invariant 0 <= i <= count && 0 <= offset <= |body| && offset + Sum(sizes[i..]) == Sum(sizes)
      invariant Fields(sizes, body) == After(fields, Fields(sizes[i..], body[offset..]))
    {
      var size: int := sizes[i];
      TakeField(sizes, body, i, offset, fields);
      var field := Decode(body[offset..offset + size]);
      if field.None? {
        return Err(InvalidText);
      }
      fields, offset, i := fields + [field.value], offset + size, i + 1;
    }
    NothingLeft(body[offset..], fields);
    assert sizes[count..] == [];
    return Ok((fields, body[offset..]));
  }

  lemma NothingLeft(body: Bytes, fields: seq<Text>)
    ensures Sum([]) == 0 && After(fields, Fields([], body)) == Ok(fields)
  {
    assert fields + [] == fields;
  }
}
