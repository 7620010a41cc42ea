# Result channel of the LiveKit hello-world client, in Dafny

This project models the result channel of `result_pipe.py`. That is the part of
the demonstration client that listens on a LiveKit room for inference results
pushed back by the remote tracker or classifier. It has two pieces:

- **`ModelResult` and its wire codec** (module `Records`, `model_result.dfy`).
  - `asjsondict` writes a sparse dictionary. `id`, `message` and `timestamp` are always there, `timestamp` as integer milliseconds. `deleted` appears only when the flag is truthy, and then as `True`.
  - `from_jsondict` / `update_from_jsondict` rebuild a record with backward-compatible defaults:
    - a fresh id when `id` is absent or falsy;
    - the local "now" when `timestamp` is absent or falsy (0 included);
    - `message = None` and `deleted = False` when those keys are absent.
- **`ResultPipe`** (module `Pipe`, `result_pipe.dfy`). It is a class with these fields:
  - `subscribed`: registered with the room's `data_received` event, set by the constructor and cleared by `Close`;
  - `events`: the log of emitted `message_received` events;
  - `outbox`: what `send_message` published.

  `DataReceived` stands for the room delivering one packet. The handler runs only while subscribed. It ignores every topic except `classifier-result-topic`, `detector-result-topic` and `tracker-result-topic`. Otherwise it decodes the payload and emits exactly one event, unless a decoding step raises first.

JSON values are the datatype `Json.Value` (module `Json`, `json.dfy`), with Python's truthiness and `dict.get`. Time is an integer count of microseconds since the epoch, which is the resolution of a Python `datetime`.

These are inputs to the model, not behaviour it verifies:
- `datetime.now()` is the `now` argument.
- `uuid.uuid4()` is the `freshId` argument.
- `json.loads` is the oracle `parse: string -> Option<Value>`; `None` means the text does not parse. The pipe fixes it at construction.

The pipe's ghost field `heard` records the packets delivered while it was subscribed. Its invariant `Valid()` states that `events == Trace(heard, parse)`: the log is exactly the events the handler emits for those packets, in delivery order.

Two consequences of the code are worth stating:
- A sent plain-text message such as `"hello"` decodes with `from_jsondict`, with `deleted` False (`Records.SentRecordDecodes`). The handler then runs `json.loads` on its text (`result_pipe.py:98`). That raises, so nothing is emitted (`Pipe.PlainTextMessageIsNotEmitted`).
- `from_jsondict` keeps a truthy `id`, and `message` and `deleted`, in whatever JSON type the wire gave them, because the dataclass's type hints are not enforced. The model's record fields are therefore JSON values. `Records.WellFormed` (a truthy id and a boolean `deleted`) picks out the records for which the round trip is exact.

`Pipe.ResultPipe.SendMessage` requires a recognised topic. That requires stands for the parameter's declared `Literal` type (`TOPICS_TYPE`, `result_pipe.py:16` and `result_pipe.py:85`), which callers are meant to respect even though Python does not check it.

## Model

| member | source | states |
|---|---|---|
| Records.MillisOf | result_pipe.py:67 | the encoded timestamp is the record's time in whole milliseconds, truncated toward zero as Python's `int` truncates |
| Records.MicrosOfWire | result_pipe.py:49-50 | a wire timestamp converts exactly when it is a number (range errors left out); otherwise it is the not-a-number error. An integer n gives n × 1000 µs and True gives 1000 µs; a float is rounded to within half a microsecond |
| Records.RoundHalfEven | result_pipe.py:50 | `fromtimestamp` rounds to the nearest microsecond, with ties to the even one |
| Records.UpdateFromJsonDict | result_pipe.py:58-60 | `message` becomes the wire value, or null when the key is absent; `deleted` becomes the wire value, or False when absent; id, timestamp and is_local do not change |
| Records.FromJsonDict | result_pipe.py:45-56 | errors exactly when a truthy timestamp is not a number; a present, truthy id is kept, otherwise the fresh id is used; a truthy timestamp gives ms × 1000 µs (True gives 1 ms, a float is rounded to within half a microsecond); a falsy or absent one gives now; message and deleted follow update_from_jsondict; the record is not local |
| Records.AsJsonDict | result_pipe.py:62-71 | the keys are exactly id, message and timestamp, plus deleted exactly when the flag is truthy, and then its value is True; id and message are copied; the timestamp is an integer within one millisecond of the record's time, on the same side of it as zero |
| Records.MillisOfScaled | result_pipe.py:50-67 | a whole number of milliseconds decoded to microseconds encodes back to the same number |
| Records.RoundTrip | result_pipe.py:45-71 | decoding an encoded record always succeeds. It gives back the message, the id when truthy, `deleted` as the boolean of its truthiness (False when the key was left out) and the time truncated to milliseconds. A millisecond count of 0 decodes as now |
| Records.RoundTripWellFormed | result_pipe.py:45-71 | a well-formed record with a non-zero millisecond count comes back equal, except that its time is truncated to milliseconds (less than 1 ms away) and is_local is False |
| Records.WireRoundTrip | result_pipe.py:45-71 | every dictionary of the canonical shape (the keys above, truthy id, non-zero integer timestamp, deleted only as True) decodes and re-encodes to itself |
| Records.EncodeIsCanonical | result_pipe.py:62-71 | encoding a record with a truthy id and a non-zero millisecond count gives a dictionary of the canonical shape |
| Records.UpdateIdempotent | result_pipe.py:58-60 | applying the same wire dictionary twice gives the same record as applying it once |
| Records.NewLocalResult | result_pipe.py:86 | the record built for sending carries the given text, the fresh id and now, is local and has a false boolean `deleted`; with a non-empty fresh id it is well-formed |
| Records.SentRecordDecodes | result_pipe.py:85-92 | the wire form of a sent record has no deleted key and carries the text; a receiver decodes the text with deleted False and keeps a non-empty id |
| Pipe.IsRecognisedTopic | result_pipe.py:12-15 | a topic is recognised exactly when it is one of the three result topics |
| Pipe.RecognisedTopics | result_pipe.py:12-15 | each of the three topic constants is recognised; "unrelated-topic" is not |
| Pipe.OnDataReceived | result_pipe.py:94-103 | the packet is ignored exactly when its topic is not recognised; when the handler emits, the record is what the payload decodes to and its message is text whose metadata.timestamp is a number a float can hold |
| Pipe.HasMetadataTimestamp | result_pipe.py:100-101 | holds exactly when the nested lookup `body["metadata"]["timestamp"]` succeeds and gives a bool, a float, or an int of magnitude below 2^1024 − 2^970 (beyond that, converting it to a float for `time.time() - ts` raises `OverflowError`), so the latency subtraction does not raise |
| Pipe.HugeMetadataTimestampRaises | result_pipe.py:100-101 | a decoded packet whose message has an integer metadata.timestamp too large for a float raises in the latency step and is not emitted |
| Pipe.AcceptedPacketIsEmitted | result_pipe.py:94-103 | a packet on a recognised topic that decodes, and whose message carries metadata, is emitted as the decoded record |
| Pipe.Trace | result_pipe.py:103 | a batch of packets emits at most one event per packet |
| Pipe.TraceAppend | result_pipe.py:94-103 | the events of two batches delivered one after the other are the first batch's events followed by the second's |
| Pipe.TraceIgnoresUnrecognised | result_pipe.py:94-95 | packets that are all on unrecognised topics emit nothing |
| Pipe.EmittedAt | result_pipe.py:103 | the record emitted for packet i comes right after the events of the packets before it |
| Pipe.TraceOrder | result_pipe.py:103 | when packets i < j both emit, the record of i comes before the record of j in the event log |
| Pipe.PlainTextMessageIsNotEmitted | result_pipe.py:97-103 | the record of a sent message whose text is not JSON raises while decoding the message and emits nothing, even on a recognised topic |
| Pipe.SentRecordIsEmitted | result_pipe.py:94-103 | the wire form of a well-formed record, delivered on a recognised topic with a metadata-carrying message, is emitted as that record with its time truncated to milliseconds |
| Pipe.ResultPipe.constructor | result_pipe.py:75-80 | a new pipe is subscribed, and its event log and outbox are empty |
| Pipe.ResultPipe.Close | result_pipe.py:82-83 | after close the pipe is unsubscribed; events and outbox do not change; it may be called again |
| Pipe.ResultPipe.SendMessage | result_pipe.py:85-92 | returns a local record with the given text, the fresh id, now and deleted False; appends exactly its wire form, on the given topic, to the outbox; does not depend on being subscribed |
| Pipe.ResultPipe.DataReceived | result_pipe.py:94-103 | while subscribed, the handler's outcome is returned and its event (if any) is appended to the log. While detached, nothing happens and nothing is emitted. The log stays equal to the trace of the packets heard |

## Left out

- JSON text: `json.loads` is an oracle, and `json.dumps` is not modelled. The outbox holds the dictionary that would be serialised, and `parse` is not tied to a serialiser.
- The LiveKit transport (`connect_to_room`, `room.on`/`room.off`, `publish_data`): its code is not part of this model. Registration is the `subscribed` flag and publishing is appending to `outbox`. A publish that fails, and whatever `room.off` does when the handler is already unregistered, are not modelled. The model assumes that the room's dispatcher survives an exception raised by the `data_received` handler: after `Raised` the pipe stays subscribed and goes on handling later packets.
- `print` calls, the latency value computed at result_pipe.py:101, and the `participant` field. The latency step is kept only as the check that can raise: the message must be JSON text whose `metadata.timestamp` is a bool, a float, or an int that converts to a float.
- Floating point: time is exact integer microseconds. A float seconds value times 1000 is treated as exact, so a real run in which floating-point rounding makes `int(...)` lose a millisecond is not captured. Wire floats are exact reals, so the `NaN` and `Infinity` that `json.loads` accepts are not modelled. They are truthy, and `fromtimestamp` raises `ValueError` or `OverflowError` on them.
- Records.MicrosOfWire, Records.FromJsonDict: do not model the range errors of a wire timestamp. An integer too large for a float makes `d.get("timestamp", 0) / 1000.0` raise `OverflowError` (result_pipe.py:50), and `fromtimestamp` raises `OverflowError`/`ValueError` for times outside the platform's range; the model decodes every number. Local-time and daylight-saving effects of naive datetimes are not modelled either.
- Records.UpdateFromJsonDict: update in place is modelled as returning the updated record, so aliasing of a mutated record is not captured.
- Listeners of `message_received` and their own exceptions: the log records each emit once, in order, without running callbacks.
- `stream_script.py`, `assemble_webrtc_config` and the remote job start/stop calls: configuration data and I/O glue, with no stateable logic.
