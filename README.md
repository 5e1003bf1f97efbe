# Live voice session audio pipeline, in Dafny

This project models the audio core of the live consultation component
(`components/LiveConsultant.tsx`). The component streams microphone audio
to a remote speech model and plays the synthesized reply back without gaps.
When the server reports that the user barged in, it stops playback at once.

The model has seven modules. Four of them model parts of the component (`BinaryString`, `Capture`, `Inbound`, `Playback`); `Platform`, `Base64` and `Pcm` model what the browser provides and the byte layout they share:

- `Platform` holds the typed-array element types (`byte`, `int16`) and the
  conversions a typed-array store performs (ToUint8, ToInt16). It also holds
  the exceptions the modelled calls can throw, as a `Result`.
- `Base64` models the browser's `btoa` and `atob`. Encoding follows
  section 4 of RFC 4648. Decoding is the WHATWG "forgiving-base64 decode"
  that `atob` runs: whitespace is dropped, padding is optional, and leftover
  bits are discarded.
- `BinaryString` models `encode` and `decode`: bytes to a one-character-per-byte
  string and through `btoa`, and back through `atob` into a `Uint8Array`.
  Both are loops over arrays.
- `Pcm` holds the layout of an `Int16Array` buffer as bytes, low byte first,
  and the reading of a sample as `v / 32768`.
- `Capture` models the `onaudioprocess` handler. It fills an `Int16Array`
  with each float sample times 32768, views its buffer as bytes, base64-encodes
  them, and tags them `audio/pcm;rate=16000`.
- `Inbound` models `decodeAudioData`. It views bytes as Int16, checks the
  buffer the way `createBuffer` does, and fills each channel in nested loops.
- `Playback` models the scheduler. It has a specification over a `State`
  value (cursor, live sources in insertion order, sources created, and a
  log of `start`/`stop` calls). The class `LivePlayback` holds the
  component's refs as fields. Its `onmessage` and `onended` handlers are
  proved against that specification.

Samples and times are `real`. The product `sample * 32768` is exact in
IEEE arithmetic, because 32768 is a power of two. So is `v / 32768` stored
into a Float32 channel. The real-number model therefore loses nothing for
finite samples.

Three behaviours of the code are easy to misread; the model follows the code in each:

- The sample conversion truncates toward zero and wraps modulo 2^16. This is
  what a store into an `Int16Array` does. It does not round, and it does not
  saturate.
- A payload that fails to decode is not skipped. The exception ends the
  handler after line 96 has already moved the cursor, so an `interrupted`
  flag in the same message is not acted on (`UndecodableAudioLeavesSources`).
- On interruption the cursor is reset to 0, not to the current time. The
  next segment still starts at the current time, because of the `max` at
  line 96 (`ResumeAfterInterrupt`).

## Model

| member | source | states |
|---|---|---|
| `Platform.ToUint8` | components/LiveConsultant.tsx:20 | a `Uint8Array` store keeps n modulo 256, and leaves values in 0..255 unchanged |
| `Platform.WrapInt16` | components/LiveConsultant.tsx:80 | an `Int16Array` store gives the unique value in [-32768, 32767] congruent to n modulo 2^16; in-range values are unchanged |
| `Platform.Truncate` | components/LiveConsultant.tsx:80 | the float-to-integer step rounds toward zero: the result has the sign of x and lies within 1 of it, on the zero side |
| `Platform.ToInt16` | components/LiveConsultant.tsx:80 | storing x into an `Int16Array` keeps its integer part (toward zero) modulo 2^16, and keeps an in-range integer part unchanged |
| `Platform.WrapInt16Edges` | components/LiveConsultant.tsx:80 | 32767 and -32768 stay; 32768 becomes -32768 and -32769 becomes 32767: wrapping, no clamping |
| `Base64.Value` | components/LiveConsultant.tsx:16 | a character atob accepts has a 6-bit value whose alphabet letter is that character |
| `Base64.Encode` | components/LiveConsultant.tsx:12 | btoa's output has four characters per started group of three bytes |
| `Base64.ForgivingDecode` | components/LiveConsultant.tsx:16 | atob's decoding fails only with InvalidCharacterError, and yields at most three bytes for every four input characters |
| `Base64.Btoa` | components/LiveConsultant.tsx:12 | btoa fails exactly when the string has a character above U+00FF |
| `Base64.Atob` | components/LiveConsultant.tsx:16 | atob's output, when it succeeds, is a binary string |
| `Base64.StringOf` | components/LiveConsultant.tsx:9-11 | the binary string of b has \|b\| characters, character i having code b[i], and maps back to b |
| `Base64.BytesOf` | components/LiveConsultant.tsx:19-21 | a binary string's bytes are its character codes, one per character |
| `Base64.DecodeEncode` | components/LiveConsultant.tsx:12-16 | forgiving decode inverts the RFC 4648 encoding on every byte sequence |
| `Base64.AtobBtoa` | components/LiveConsultant.tsx:12-16 | btoa succeeds on every binary string, and atob gives the string back |
| `BinaryString.Encode` | components/LiveConsultant.tsx:6-13 | `encode` builds the binary string of the bytes, and returns what btoa makes of it: the base64 encoding of the bytes |
| `BinaryString.Decoded` | components/LiveConsultant.tsx:15-23 | `decode` throws exactly when atob does, and then with InvalidCharacterError |
| `BinaryString.Decode` | components/LiveConsultant.tsx:15-23 | `decode` fills a fresh `Uint8Array` with the char codes of atob's output, or throws atob's error |
| `BinaryString.DecodeEncode` | components/LiveConsultant.tsx:6-23 | decode(encode(b)) == b for every byte sequence b |
| `Pcm.FromBytes` | components/LiveConsultant.tsx:31 | the Int16 element read from two bytes lays out again as exactly those two bytes |
| `Pcm.FromBytesOfSample` | components/LiveConsultant.tsx:31 | reading back the two bytes of a stored sample gives the sample |
| `Pcm.LittleEndian` | components/LiveConsultant.tsx:83 | the buffer of l Int16 samples is 2·l bytes, sample i at bytes 2i (low) and 2i+1 (high) |
| `Pcm.Int16View` | components/LiveConsultant.tsx:31 | `new Int16Array(buffer)` throws RangeError exactly on an odd byte length, and otherwise has half as many elements |
| `Pcm.ViewOfLittleEndian` | components/LiveConsultant.tsx:31 | viewing the packed bytes of any sample block as Int16 recovers the block |
| `Pcm.LittleEndianOfView` | components/LiveConsultant.tsx:31 | every even-length byte sequence is the packing of its own Int16 view |
| `Pcm.ToFloat` | components/LiveConsultant.tsx:38 | a sample over 32768 lies in [-1, 32767/32768], and times 32768 gives the sample back |
| `Capture.Quantize` | components/LiveConsultant.tsx:78-80 | the Int16 array has one element per captured sample |
| `Capture.OnAudioProcess` | components/LiveConsultant.tsx:76-88 | the handler's blob is tagged `audio/pcm;rate=16000`, and its data is the base64 of the block's Int16 buffer bytes |
| `Capture.PayloadLayout` | components/LiveConsultant.tsx:79-83 | a block of l samples gives 2·l bytes, sample i's low byte first |
| `Capture.FullBlockSize` | components/LiveConsultant.tsx:75-83 | a 4096-sample block is 8192 bytes, or 10924 base64 characters |
| `Capture.PayloadRoundTrip` | components/LiveConsultant.tsx:31 | decoding the payload text and viewing it as `Int16Array` gives back exactly the stored samples |
| `Capture.QuantizeInRange` | components/LiveConsultant.tsx:80 | a sample in [-1, 1) is truncated, not wrapped: it reads back within 1/32768 of itself and no farther from zero |
| `Capture.FullScaleWraps` | components/LiveConsultant.tsx:80 | a full-scale 1.0 sample is stored as -32768, the same as -1.0 |
| `Inbound.DecodeAudio` | components/LiveConsultant.tsx:25-42 | decoding throws RangeError on an odd byte length, and NotSupportedError when there are zero channels, zero frames or a zero rate; otherwise it gives numChannels channels of (bytes/2)/numChannels frames |
| `Inbound.Deinterleave` | components/LiveConsultant.tsx:35-40 | the interleaved samples give n channels of \|samples\|/n frames each; the value at each position is stated by `Inbound.DecodedValue` |
| `Inbound.DecodedValue` | components/LiveConsultant.tsx:35-40 | channel c, frame i is Int16 sample i·numChannels + c over 32768, so in [-1, 32767/32768] |
| `Inbound.InterleaveDeinterleave` | components/LiveConsultant.tsx:32-40 | interleaving the channels again gives every sample but those of an incomplete last frame, each over 32768 |
| `Inbound.MonoSegment` | components/LiveConsultant.tsx:97 | the session's call (one channel, 24 kHz) on an even, non-empty payload gives one value per sample and lasts samples/24000 s |
| `Inbound.CreateBuffer` | components/LiveConsultant.tsx:33 | `createBuffer` throws NotSupportedError for zero channels, frames or rate; otherwise it gives a fresh buffer of that shape |
| `Inbound.AudioBuffer.constructor` | components/LiveConsultant.tsx:33 | a new buffer has the requested channels, frames and rate |
| `Inbound.DecodeAudioData` | components/LiveConsultant.tsx:25-42 | the nested loops leave the fresh buffer holding exactly the decoded segment, or the call throws that segment's error |
| `Playback.CatchUp` | components/LiveConsultant.tsx:96 | the cursor becomes the later of itself and the current time; nothing else changes |
| `Playback.PlayKeepsValid` | components/LiveConsultant.tsx:98-104 | starting a new source at the cursor keeps the invariant: the new source is started, not stopped, and goes last in the set's ascending order |
| `Playback.Schedule` | components/LiveConsultant.tsx:96-103 | a segment starts at max(cursor, now), so no earlier than either; the cursor ends at start + duration; the new source is started and joins the set |
| `Playback.Remove` | components/LiveConsultant.tsx:104 | deleting a source from the set keeps exactly the other members, and an ascending set stays ascending, so insertion order is kept |
| `Playback.Ended` | components/LiveConsultant.tsx:104 | an ended source leaves the set and every other member stays; the cursor, the count of sources and the calls made are unchanged |
| `Playback.Interrupt` | components/LiveConsultant.tsx:106-110 | every live source is stopped, in the set's order; the set is empty and the cursor is 0 |
| `Playback.InterruptKeepsValid` | components/LiveConsultant.tsx:106-110 | the interruption keeps the invariant: every call it records names a created source |
| `Playback.SegmentOf` | components/LiveConsultant.tsx:97 | a payload that decodes gives a 24 kHz segment of positive duration |
| `Playback.RemoveKeepsDistinct` | components/LiveConsultant.tsx:104 | deleting from a set with no repeats leaves none, and shrinks it by one exactly when the source was there |
| `Playback.Receive` | components/LiveConsultant.tsx:92-111 | `onmessage` throws exactly when the audio fails to decode, with that error and the set untouched; a handled interrupted message leaves no sources and the cursor at 0; one source is created exactly when the audio decodes; the call log only grows; a message with neither audio nor flag changes nothing, and a flag-only message stops every live source in order, empties the set and resets the cursor |
| `Playback.ReceiveKeepsValid` | components/LiveConsultant.tsx:92-111 | each message keeps the invariant: every source in the set appears once, in insertion order (ascending creation number), started and not stopped |
| `Playback.EndedKeepsValid` | components/LiveConsultant.tsx:104 | an `ended` event keeps the invariant |
| `Playback.ReceiveAccounts` | components/LiveConsultant.tsx:92-111 | after a message, a source that was live, or not yet created, is still in the set, still not created, or was stopped; the count of sources and the call log only grow |
| `Playback.StepAccounts` | components/LiveConsultant.tsx:92-111 | the same for any event, except a source's own `ended` event |
| `Playback.RunGrows` | components/LiveConsultant.tsx:92-111 | over any run, the count of sources and the call log only grow |
| `Playback.NoSourceForgotten` | components/LiveConsultant.tsx:92-111 | a source that was live or scheduled during a run is, at its end, still in the set, ended on its own, or stopped: no scheduled source is dropped from the set while it may still play |
| `Playback.RunKeepsValid` | components/LiveConsultant.tsx:92-111 | every sequence of messages and `ended` events keeps the invariant |
| `Playback.EndedRemovesOnly` | components/LiveConsultant.tsx:104 | `onended` removes only its own source; the cursor, the calls made and every other source stay |
| `Playback.InterruptStopsSameMessage` | components/LiveConsultant.tsx:94-110 | a message with both audio and the interrupted flag starts its segment and then stops it with all the others; the set ends empty and the cursor at 0 |
| `Playback.UndecodableAudioLeavesSources` | components/LiveConsultant.tsx:94-97 | a payload that fails to decode moves only the cursor and ends the handler with that error; the interruption is skipped |
| `Playback.ResumeAfterInterrupt` | components/LiveConsultant.tsx:96-109 | after an interruption, the next segment starts at the current time |
| `Playback.ReceiveSchedules` | components/LiveConsultant.tsx:94-105 | a message with decodable audio and no interruption schedules exactly that segment |
| `Playback.CursorNeverDecreases` | components/LiveConsultant.tsx:96-104 | with no interruption, no sequence of messages and `ended` events moves the cursor back |
| `Playback.StartsChain` | components/LiveConsultant.tsx:96-102 | each segment starts when the previous one ends, or on arrival if that is later |
| `Playback.BackToBack` | components/LiveConsultant.tsx:96-102 | segments that arrive before the previous one ends play back to back: each starts at the first one's start plus the durations before it |
| `Playback.TwoSegmentsBackToBack` | components/LiveConsultant.tsx:96-102 | segments of 0.5 s and 0.3 s, the second arriving in time, start 0.5 s apart |
| `Playback.LivePlayback.constructor` | components/LiveConsultant.tsx:49-50 | the refs start with cursor 0 and no sources |
| `Playback.LivePlayback.OnMessage` | components/LiveConsultant.tsx:92-111 | the handler changes the fields exactly as the specification of one message says, and keeps the invariant |
| `Playback.LivePlayback.OnEnded` | components/LiveConsultant.tsx:104 | `onended` removes exactly that source, and keeps the invariant |
| `Playback.LivePlayback.StopAll` | components/LiveConsultant.tsx:107-109 | the loop stops each source in the set in order, then clears the set and resets the cursor |

## Left out

- React rendering, hooks and status strings, and `startSession` and `stopSession`
  (lines 44-129 outside the two handlers): UI and callback plumbing.
  `stopSession` also has no guard and does not clear `sessionRef`, so
  calling it twice closes the session twice. The model does not add a guard.
- The remote session (`GoogleGenAI`, `ai.live.connect`, `sendRealtimeInput`),
  `getUserMedia`, and the creation of the `AudioContext` and script processor:
  these are foreign calls. The send is represented by the `Blob` that
  `Capture.OnAudioProcess` returns. The `sessionPromise.then` deferral of the
  send at line 87 is not modelled.
- `source.start` and `source.stop` are recorded as `Effect`s in the scheduler
  state. The audio they produce, and the `ended` event that `stop()` itself
  triggers, are not modelled. That event would only delete a source that is
  no longer in the set. `ctx.currentTime` is the `now` parameter.
- Concurrency: `onmessage` is `async` and awaits at line 97, between moving
  the cursor and using it. So two messages can interleave. The model handles
  one message at a time, as if every await resolved at once.
- How the message's audio field is found (`message.serverContent?.modelTurn?.parts[0]?...`):
  `Message` carries the result. A present `modelTurn` without `parts` would
  throw, and that case is not modelled.
- IEEE floating point: NaN and infinite samples (ToInt16 gives 0 for them),
  and float rounding of `currentTime` and `duration`. Times and samples are
  reals.
- Inbound.CreateBuffer: refuses only zero channels, frames or rate. The
  platform's upper limits on channel count and its supported sample-rate
  range (the component always asks for 1 channel at 24000 Hz) are not
  modelled.
- The byte order of typed-array views is taken as little-endian. That is the
  order of every platform the component runs on, and it is what the
  `audio/pcm` format expects.
- `data.buffer` in `decodeAudioData` is taken to be exactly the bytes of
  `data`. This holds for the freshly allocated `Uint8Array` that `decode`
  returns, the only argument the component passes.
- services/geminiService.ts, App.tsx and types.ts are not part of this model:
  they hold network glue, UI state and type declarations.
