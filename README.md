# Verified model of the monitoring protocol's frame codec

This project models `mensagens.py`, the binary message codec of a small
network-monitoring protocol. In this protocol agents register with a server,
which sends them monitoring tasks. The codec builds and parses three kinds of frame:

- **ATIVA** (registration): a header byte, then the agent id (1 byte).
- **ACK** (confirmation): the header byte alone.
- **TASK**: a header byte, then the task type, the metric and the value (1 byte each).

The header byte holds the message type in its three most significant bits
(`MESSAGE_TYPES`: ATIVA = 0, ACK = 1, TASK = 2). It holds a sequence number
in 0..31 in its five least significant bits. The encoders raise `ValueError`
for a sequence outside 0..31. `struct.pack` raises for a payload field outside
0..255. The decoder returns the fields of a known type. It returns `UNKNOWN`
with the raw data for any other type. It raises `IndexError` on a frame
shorter than its type needs.

Everything is in `messages.dfy`, module `Messages`, with a `Result` datatype
in module `Results`. The functions model what the Python returns. A raised
exception becomes an `Err` value.

- Frames are sequences of a `Byte` newtype (0..255).
- The encoders take unbounded integers, as Python does, and range-check them
  where the source does.
- The header's shift, OR and masks are written as arithmetic on 32.
  `HeaderMasks` proves that the split equals the masks and shift for every
  8-bit value. `HeaderShift` proves that the build equals the shift and OR
  for every type that fits three bits and every sequence below 32.

**The decoder as modelled.** In `mensagens.py` the two lines that extract the
type and the sequence from `data[0]` are commented out (lines 58-59). As
written, `decode_message` therefore raises `NameError` on every input (see
Findings). The body after those lines is modelled once, as `DecodeWith`,
taking the two names as a binding that may be missing.
`DecodeMessageAsWritten` runs it unbound. `DecodeMessage` runs it with the split those lines
describe: `(b & 0b11100000) >> 5` and `b & 0b00011111`. It is the intended
behaviour, not what the file does when run. Because `data[0]` is read before
the type is tested, an empty input raises `IndexError` even though an unknown
type would otherwise return its raw data.

## Model

| member | source | states |
|---|---|---|
| `Messages.TypeName` | mensagens.py:61-78 | the "type" name of a decoded message is a key of MESSAGE_TYPES exactly when the message is not UNKNOWN |
| `Messages.MessageTypesDistinct` | mensagens.py:4-8 | MESSAGE_TYPES gives ATIVA, ACK and TASK three different tags, each of which fits the three type bits |
| `Messages.TagOf` | mensagens.py:58 | the type read from a header byte is below 8 |
| `Messages.SequenceOf` | mensagens.py:59 | the sequence read from a header byte is at most 31 |
| `Messages.Header` | mensagens.py:20-21 | the header value built from a type below 8 and a sequence in 0..31 always fits one byte, and that byte gives back exactly that type and that sequence: OR-ing in the sequence never disturbs the type bits |
| `Messages.HeaderMasks` | mensagens.py:58-59 | for every 8-bit value, TagOf is `(b & 0b11100000) >> 5` and SequenceOf is `b & 0b00011111` |
| `Messages.HeaderShift` | mensagens.py:20-21 | for every type below 8 and sequence below 32, Header is the byte obtained by shifting the type left by 5 and OR-ing in the sequence, which equals type * 32 + sequence |
| `Messages.HeaderSplit` | mensagens.py:58-59 | every byte is the header of the type and sequence it holds, so the header split loses nothing |
| `Messages.PackBytes` | mensagens.py:48 | `struct.pack` with format `!` and one `B` per value succeeds exactly when every value is in 0..255, raising the pack error otherwise; it yields one byte per value, each equal to its value, in order |
| `Messages.CreateAtivaMessage` | mensagens.py:11-21 | fails with the sequence error exactly when the sequence is outside 0..31, and otherwise with the pack error exactly when the agent id is outside 0..255; a frame is 2 bytes, with the ATIVA tag and the sequence in byte 0 and the agent id in byte 1 |
| `Messages.CreateAckMessage` | mensagens.py:24-33 | fails with the sequence error exactly when the sequence is outside 0..31; a frame is 1 byte holding the ACK tag and the sequence |
| `Messages.CreateTaskMessage` | mensagens.py:36-48 | fails with the sequence error exactly when the sequence is outside 0..31, and otherwise with the pack error exactly when task type, metric or value is outside 0..255; a frame is 4 bytes, with the TASK tag and the sequence in byte 0 and task type, metric and value in bytes 1..3 in that order |
| `Messages.DecodeMessage` | mensagens.py:51-78 | fails, with an index error only, exactly when the input is empty or shorter than its type needs (2 bytes for ATIVA, 4 for TASK); a header whose type is not in MESSAGE_TYPES gives UNKNOWN carrying the input unchanged, and only such a header does; a known message carries the type name and the sequence held in byte 0 |
| `Messages.DecodeWith` | mensagens.py:61-78 | with the names unbound the body raises NameError at its first comparison; with them bound it raises only IndexError, returns UNKNOWN carrying the input exactly when the type is not in MESSAGE_TYPES, and otherwise a message whose type name and sequence are the bound ones |
| `Messages.DecodeMessageAsWritten` | mensagens.py:57-61 | the decoder as written, whose header split is commented out, fails with a NameError on every input |
| `Messages.RoundTripAtiva` | mensagens.py:61-63 | decoding an ATIVA frame, followed by any bytes, gives back its sequence and agent id |
| `Messages.RoundTripAck` | mensagens.py:64-65 | decoding an ACK frame, followed by any bytes, gives back its sequence |
| `Messages.RoundTripTask` | mensagens.py:66-76 | decoding a TASK frame, followed by any bytes, gives back its sequence, task type, metric and value |
| `Messages.RoundTrip` | mensagens.py:58-76 | for every message an encoder accepts, decoding its frame (with any trailing bytes) gives back the same message |
| `Messages.EncodeOfDecode` | mensagens.py:58-76 | every input that decodes to a known type starts with exactly the frame its encoder produces for the decoded fields |
| `Messages.DecodeIgnoresTrailing` | mensagens.py:61-76 | a known message decodes the same whatever bytes follow the ones its type needs |
| `Messages.EncodeInjective` | mensagens.py:4-8 | two messages encoded to the same frame are equal, so frames of different types or fields never coincide |
| `Messages.ExampleRoundTrips` | mensagens.py:83-92 | the three messages encoded and decoded at the end of the file (ATIVA 5/42, ACK 10, TASK 15/2/3/100) decode to their own fields |
| `Messages.AsWrittenLosesExample` | mensagens.py:83-84 | the ATIVA frame built at line 83 fails to decode as written at line 84 but decodes to ATIVA 5/42 with the intended header split |

## Left out

- `testesaux.py` and `metricas.py`: they run `ping` and `iperf3` as subprocesses and read CPU and RAM counters. They parse tool output into floating-point numbers. Their interactive menu reads console input. All of this is I/O and floating point.
- `parserJSON.py`: file reading, `json.load` and console output.
- `agent.py` and `server.py`: UDP/TCP socket clients and a receive-and-print server loop.
- The test block at `mensagens.py:81-92` prints its results. Its encode/decode pairs are stated as `ExampleRoundTrips`; the printing is not modelled.
- Arguments that are not integers: Python raises `ValueError`, `TypeError` or `struct.error` depending on the argument and its value; the encoders take integers only.

## Findings

| source | as written | input that shows it | evidently intended | confidence | as-written member | corrected member |
|---|---|---|---|---|---|---|
| mensagens.py:58-61 | the header split is commented out, so `message_type` is unbound when line 61 reads it and `decode_message` raises NameError on every input | `decode_message(create_ativa_message(5, 42))`, the first decode of the file's own test, at line 84 | `message_type = (data[0] & 0b11100000) >> 5` and `sequence = data[0] & 0b00011111`, after which every encoder's frame decodes back to its fields | high (not executed) | `Messages.DecodeMessageAsWritten`, `Messages.AsWrittenLosesExample` | `Messages.DecodeMessage`, `Messages.RoundTrip` |
