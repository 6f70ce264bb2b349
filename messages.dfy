/** Outcome of an operation that can raise: the value, or the error it raised. */
module Results {

  datatype Result<+T, +E> = Ok(value: T) | Err(error: E)
}

/**
 * The binary frame codec of the monitoring protocol (mensagens.py).
 *
 * A frame starts with one header byte: the three most significant bits hold
 * the message type (ATIVA = 0, ACK = 1, TASK = 2) and the five least
 * significant bits hold the sequence number, 0..31.  ATIVA (registration)
 * carries one more byte, the agent id; ACK carries nothing else; TASK
 * carries three more bytes, task type, metric and value.
 *
 * Frames are sequences of bytes; the integer arguments of the encoders are
 * unbounded, as Python's are, and are range-checked exactly where the
 * source checks them.  The header's shifts and masks are written as
 * multiplication, division and remainder by 32; HeaderMasks proves that the
 * split agrees with the masks and shift on every 8-bit value, and HeaderShift
 * that the build agrees with the shift and OR for every type that fits three
 * bits and every sequence below 32.
 */
module Messages {

  import opened Results

  /** One octet on the wire, as Python's `bytes` indexing yields it. */
  newtype Byte = x: int | 0 <= x < 256
  type Frame = seq<Byte>

  /** MESSAGE_TYPES: the type name of each known message and its 3-bit tag. */
  const MessageTypes: map<string, nat> := map["ATIVA" := 0, "ACK" := 1, "TASK" := 2]

  /** Largest sequence number a header can carry (five bits). */
  const MaxSequence: int := 31

  /** Fixed frame lengths, header included. */
  const AtivaLength: nat := 2
  const AckLength: nat := 1
  const TaskLength: nat := 4

  /**
   * What the encoders raise: `ValueError` for a sequence outside 0..31, and
   * `struct.error` for a field that format code `B` cannot pack.
   */
  datatype EncodeError = SequenceOutOfRange | ByteOutOfRange

  /**
   * What decoding raises: `IndexError` when the frame is shorter than its
   * type needs, and `NameError` for the decoder as written, whose header
   * split is commented out.
   */
  datatype DecodeError = IndexOutOfRange | NameUnbound

  /** The dictionary `decode_message` returns, one constructor per "type". */
  datatype Message =
    | Ativa(sequence: int, agentId: int)
    | Ack(sequence: int)
    | Task(sequence: int, taskType: int, metric: int, value: int)
    | Unknown(rawData: Frame)

  /** The "type" entry of a decoded message. */
  function TypeName(m: Message): (name: string)
    ensures name in MessageTypes <==> !m.Unknown?
  {
    match m
    case Ativa(_, _) => "ATIVA"
    case Ack(_) => "ACK"
    case Task(_, _, _, _) => "TASK"
    case Unknown(_) => "UNKNOWN"
  }

  /** The range `struct.pack` accepts for format code `B`. */
  predicate IsUnsignedByte(x: int) {
    0 <= x <= 255
  }

  predicate IsSequence(x: int) {
    0 <= x <= MaxSequence
  }

  // ---------------------------------------------------------------------
  // Header byte
  // ---------------------------------------------------------------------

  /** `(b & 0b11100000) >> 5`: the message type held in a header byte. */
  function TagOf(b: Byte): (tag: nat)
    ensures tag < 8
  {
    b as int / 32
  }

  /** `b & 0b00011111`: the sequence number held in a header byte. */
  function SequenceOf(b: Byte): (sequence: nat)
    ensures sequence <= MaxSequence
  {
    b as int % 32
  }

  /**
   * `(tag << 5) | sequence`, the integer the encoders pack as byte 0.  Since
   * the sequence is below 32 the OR never touches the three type bits, so
   * the value is a byte from which both parts read back unchanged.
   */
  function Header(tag: nat, sequence: int): (h: int)
    requires tag < 8 && IsSequence(sequence)
    ensures IsUnsignedByte(h)
    ensures TagOf(h as Byte) == tag && SequenceOf(h as Byte) == sequence
  {
    tag * 32 + sequence
  }

  /** TagOf and SequenceOf are the source's masks and shift, on every 8-bit value. */
  lemma HeaderMasks(v: bv8)
    ensures TagOf(v as int as Byte) == ((v & 0xE0) >> 5) as int
    ensures SequenceOf(v as int as Byte) == (v & 0x1F) as int
  {
  }

  /** Header is the source's shift-and-OR, for every type that fits three bits and every sequence. */
  lemma HeaderShift(tag: bv8, sequence: bv8)
    requires tag < 8 && sequence < 32
    ensures Header(tag as int, sequence as int) == ((tag << 5) | sequence) as int
  {
  }

  /** Every byte is the header of exactly the type and sequence it holds. */
  lemma HeaderSplit(b: Byte)
    ensures Header(TagOf(b), SequenceOf(b)) == b as int
  {
  }

  /** MESSAGE_TYPES gives each type its own tag, and every tag fits three bits. */
  lemma MessageTypesDistinct()
    ensures forall name :: name in MessageTypes ==> MessageTypes[name] < 8
    ensures forall a, b :: a in MessageTypes && b in MessageTypes && a != b ==> MessageTypes[a] != MessageTypes[b]
  {
  }

  // ---------------------------------------------------------------------
  // Encoders
  // ---------------------------------------------------------------------

  /**
   * `struct.pack("!" + "B" * |values|, *values)`: each value becomes one
   * unsigned byte, in order; a value outside 0..255 raises `struct.error`.
   */
  function PackBytes(values: seq<int>): (r: Result<Frame, EncodeError>)
    ensures r.Ok? <==> forall i :: 0 <= i < |values| ==> IsUnsignedByte(values[i])
    ensures r.Err? ==> r.error == ByteOutOfRange
    ensures r.Ok? ==> |r.value| == |values|
                      && forall i :: 0 <= i < |values| ==> r.value[i] as int == values[i]
  {
    if values == [] then Ok([])
    else if !IsUnsignedByte(values[0]) then Err(ByteOutOfRange)
    else
      match PackBytes(values[1..])
      case Ok(rest) => Ok([values[0] as Byte] + rest)
      case Err(e) => Err(e)
  }

  /** create_ativa_message: header followed by the one-byte agent id. */
  function CreateAtivaMessage(sequence: int, agentId: int): (r: Result<Frame, EncodeError>)
    ensures r.Ok? <==> IsSequence(sequence) && IsUnsignedByte(agentId)
    ensures !IsSequence(sequence) ==> r == Err(SequenceOutOfRange)
    ensures IsSequence(sequence) && !IsUnsignedByte(agentId) ==> r == Err(ByteOutOfRange)
    ensures r.Ok? ==> |r.value| == AtivaLength
                      && TagOf(r.value[0]) == MessageTypes["ATIVA"] && SequenceOf(r.value[0]) == sequence
                      && r.value[1] as int == agentId
  {
    if !IsSequence(sequence) then Err(SequenceOutOfRange)
    else
      var fields := [Header(MessageTypes["ATIVA"], sequence), agentId];
      assert fields[1] == agentId;
      PackBytes(fields)
  }

  /** create_ack_message: the header alone. */
  function CreateAckMessage(sequence: int): (r: Result<Frame, EncodeError>)
    ensures r.Ok? <==> IsSequence(sequence)
    ensures !IsSequence(sequence) ==> r == Err(SequenceOutOfRange)
    ensures r.Ok? ==> |r.value| == AckLength
                      && TagOf(r.value[0]) == MessageTypes["ACK"] && SequenceOf(r.value[0]) == sequence
  {
    if !IsSequence(sequence) then Err(SequenceOutOfRange)
    else PackBytes([Header(MessageTypes["ACK"], sequence)])
  }

  /** create_task_message: header followed by task type, metric and value, one byte each. */
  function CreateTaskMessage(sequence: int, taskType: int, metric: int, value: int): (r: Result<Frame, EncodeError>)
    ensures r.Ok? <==> IsSequence(sequence) && IsUnsignedByte(taskType)
                       && IsUnsignedByte(metric) && IsUnsignedByte(value)
    ensures !IsSequence(sequence) ==> r == Err(SequenceOutOfRange)
    ensures IsSequence(sequence) && !r.Ok? ==> r == Err(ByteOutOfRange)
    ensures r.Ok? ==> |r.value| == TaskLength
                      && TagOf(r.value[0]) == MessageTypes["TASK"] && SequenceOf(r.value[0]) == sequence
                      && r.value[1] as int == taskType
                      && r.value[2] as int == metric
                      && r.value[3] as int == value
  {
    if !IsSequence(sequence) then Err(SequenceOutOfRange)
    else
      var fields := [Header(MessageTypes["TASK"], sequence), taskType, metric, value];
      assert fields[1] == taskType && fields[2] == metric && fields[3] == value;
      PackBytes(fields)
  }

  /** The encoder for the type of `m`, applied to its fields. */
  function Encode(m: Message): Result<Frame, EncodeError>
    requires !m.Unknown?
  {
    match m
    case Ativa(sequence, agentId) => CreateAtivaMessage(sequence, agentId)
    case Ack(sequence) => CreateAckMessage(sequence)
    case Task(sequence, taskType, metric, value) => CreateTaskMessage(sequence, taskType, metric, value)
  }

  // ---------------------------------------------------------------------
  // Decoder
  // ---------------------------------------------------------------------

  /** Bytes a frame must have for the decoder to read every field of its type. */
  function NeededLength(tag: nat): nat {
    if tag == MessageTypes["ATIVA"] then AtivaLength
    else if tag == MessageTypes["TASK"] then TaskLength
    else 1
  }

  /**
   * The names the body of decode_message reads first: `message_type` and
   * `sequence`.  They are bound by the header split of lines 58-59, or left
   * unbound when those lines are commented out.
   */
  datatype Binding = Unbound | Bound(messageType: nat, sequence: nat)

  /**
   * The body of decode_message after the header split: reading an unbound
   * `message_type` raises NameError; otherwise the type selects which
   * payload bytes are read, an unknown type returns the whole input, and a
   * payload byte past the end raises IndexError.
   */
  function DecodeWith(names: Binding, data: Frame): (r: Result<Message, DecodeError>)
    ensures names.Unbound? ==> r == Err(NameUnbound)
    ensures names.Bound? && r.Err? ==> r.error == IndexOutOfRange
    ensures names.Bound? ==> (r.Ok? && r.value.Unknown? <==> names.messageType !in MessageTypes.Values)
    ensures r.Ok? && r.value.Unknown? ==> r.value.rawData == data
    ensures r.Ok? && !r.value.Unknown? ==>
              names.Bound?
              && MessageTypes[TypeName(r.value)] == names.messageType
              && r.value.sequence == names.sequence
  {
    match names
    case Unbound => Err(NameUnbound)
    case Bound(messageType, sequence) =>
      if messageType == MessageTypes["ATIVA"] then
        if |data| < 2 then Err(IndexOutOfRange)
        else Ok(Ativa(sequence, data[1] as int))
      else if messageType == MessageTypes["ACK"] then
        Ok(Ack(sequence))
      else if messageType == MessageTypes["TASK"] then
        if |data| < 4 then Err(IndexOutOfRange)
        else Ok(Task(sequence, data[1] as int, data[2] as int, data[3] as int))
      else
        Ok(Unknown(data))
  }

  /**
   * decode_message, with the header split of its commented-out lines:
   * an unknown type comes back as UNKNOWN with the whole input, and a frame
   * too short for its type raises IndexError.
   */
  function DecodeMessage(data: Frame): (r: Result<Message, DecodeError>)
    ensures r.Err? <==> |data| == 0 || |data| < NeededLength(TagOf(data[0]))
    ensures r.Err? ==> r.error == IndexOutOfRange
    ensures r.Ok? ==> (r.value.Unknown? <==> TagOf(data[0]) !in MessageTypes.Values)
    ensures r.Ok? && r.value.Unknown? ==> r.value.rawData == data
    ensures r.Ok? && !r.value.Unknown? ==>
              MessageTypes[TypeName(r.value)] == TagOf(data[0])
              && r.value.sequence == SequenceOf(data[0])
  {
    if |data| == 0 then Err(IndexOutOfRange)
    else DecodeWith(Bound(TagOf(data[0]), SequenceOf(data[0])), data)
  }

  /**
   * decode_message as the file has it: lines 58-59 are comments, so the
   * body runs with `message_type` and `sequence` unbound.
   */
  function DecodeMessageAsWritten(data: Frame): (r: Result<Message, DecodeError>)
    ensures r.Err? && r.error == NameUnbound
  {
    DecodeWith(Unbound, data)
  }

  // ---------------------------------------------------------------------
  // Properties
  // ---------------------------------------------------------------------

  /** An ATIVA frame decodes to its sequence and agent id, whatever follows it. */
  lemma RoundTripAtiva(sequence: int, agentId: int, trailing: Frame)
    requires IsSequence(sequence) && IsUnsignedByte(agentId)
    ensures DecodeMessage(CreateAtivaMessage(sequence, agentId).value + trailing) == Ok(Ativa(sequence, agentId))
  {
    var frame := CreateAtivaMessage(sequence, agentId).value + trailing;
    assert frame[0] as int == Header(MessageTypes["ATIVA"], sequence);
  }

  /** An ACK frame decodes to its sequence, whatever follows it. */
  lemma RoundTripAck(sequence: int, trailing: Frame)
    requires IsSequence(sequence)
    ensures DecodeMessage(CreateAckMessage(sequence).value + trailing) == Ok(Ack(sequence))
  {
    var frame := CreateAckMessage(sequence).value + trailing;
    assert frame[0] as int == Header(MessageTypes["ACK"], sequence);
  }

  /** A TASK frame decodes to its sequence and its three fields in order, whatever follows it. */
  lemma RoundTripTask(sequence: int, taskType: int, metric: int, value: int, trailing: Frame)
    requires IsSequence(sequence) && IsUnsignedByte(taskType) && IsUnsignedByte(metric) && IsUnsignedByte(value)
    ensures DecodeMessage(CreateTaskMessage(sequence, taskType, metric, value).value + trailing)
            == Ok(Task(sequence, taskType, metric, value))
  {
    var frame := CreateTaskMessage(sequence, taskType, metric, value).value + trailing;
    assert frame[0] as int == Header(MessageTypes["TASK"], sequence);
  }

  /** Decoding undoes encoding for every message an encoder accepts. */
  lemma RoundTrip(m: Message, trailing: Frame)
    requires !m.Unknown? && Encode(m).Ok?
    ensures DecodeMessage(Encode(m).value + trailing) == Ok(m)
  {
    match m
    case Ativa(sequence, agentId) => RoundTripAtiva(sequence, agentId, trailing);
    case Ack(sequence) => RoundTripAck(sequence, trailing);
    case Task(sequence, taskType, metric, value) => RoundTripTask(sequence, taskType, metric, value, trailing);
  }

  /**
   * Encoding undoes decoding: a frame that decodes to a known type is, up to
   * its fixed length, exactly what the encoder for that type produces.
   */
  lemma EncodeOfDecode(data: Frame)
    requires DecodeMessage(data).Ok? && !DecodeMessage(data).value.Unknown?
    ensures Encode(DecodeMessage(data).value).Ok?
    ensures |Encode(DecodeMessage(data).value).value| <= |data|
    ensures Encode(DecodeMessage(data).value).value == data[..|Encode(DecodeMessage(data).value).value|]
  {
    HeaderSplit(data[0]);
  }

  /** The decoder reads only the bytes its type needs; trailing bytes change nothing. */
  lemma DecodeIgnoresTrailing(data: Frame, trailing: Frame)
    requires DecodeMessage(data).Ok? && !DecodeMessage(data).value.Unknown?
    ensures DecodeMessage(data + trailing) == DecodeMessage(data)
  {
    assert (data + trailing)[0] == data[0];
  }

  /** Distinct messages never share a frame; in particular distinct types never do. */
  lemma EncodeInjective(m1: Message, m2: Message)
    requires !m1.Unknown? && !m2.Unknown? && Encode(m1).Ok? && Encode(m2).Ok?
    requires Encode(m1).value == Encode(m2).value
    ensures m1 == m2
  {
    RoundTrip(m1, []);
    RoundTrip(m2, []);
    assert Encode(m1).value + [] == Encode(m2).value + [];
  }

  /** The messages exercised at the end of mensagens.py come back unchanged. */
  lemma ExampleRoundTrips()
    ensures DecodeMessage(CreateAtivaMessage(5, 42).value) == Ok(Ativa(5, 42))
    ensures DecodeMessage(CreateAckMessage(10).value) == Ok(Ack(10))
    ensures DecodeMessage(CreateTaskMessage(15, 2, 3, 100).value) == Ok(Task(15, 2, 3, 100))
  {
    RoundTripAtiva(5, 42, []);
    RoundTripAck(10, []);
    RoundTripTask(15, 2, 3, 100, []);
    assert CreateAtivaMessage(5, 42).value + [] == CreateAtivaMessage(5, 42).value;
    assert CreateAckMessage(10).value + [] == CreateAckMessage(10).value;
    assert CreateTaskMessage(15, 2, 3, 100).value + [] == CreateTaskMessage(15, 2, 3, 100).value;
  }

  /** As written, the decoder fails on the first frame the file's own test decodes. */
  lemma AsWrittenLosesExample()
    ensures CreateAtivaMessage(5, 42).Ok?
    ensures DecodeMessageAsWritten(CreateAtivaMessage(5, 42).value).Err?
    ensures DecodeMessage(CreateAtivaMessage(5, 42).value) == Ok(Ativa(5, 42))
  {
    RoundTripAtiva(5, 42, []);
    assert CreateAtivaMessage(5, 42).value + [] == CreateAtivaMessage(5, 42).value;
  }
}
