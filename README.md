# aubio sink layer: write gating and the sink facade

This project models the output side of aubio's file I/O layer in Dafny. It has two parts.

- **`IoUtils`** (`ioutils.dfy`) covers `src/io/ioutils.c`. It holds the two parameter validators, `aubio_io_validate_samplerate` and `aubio_io_validate_channels`. It also holds the two clamps that every write goes through, `aubio_sink_validate_input_length` and `aubio_sink_validate_input_channels`. C's `uint_t` is the newtype `uint32`, and the `(sint_t)` cast is written out as `AsSigned`. Because of that cast, every value from 2^31 upward is rejected as "not positive". The validators are functions. Each clamp is a method that updates a local step by step, as the C code does, and is proved equal to a `Min` of its inputs.
- **`AudioSink`** (`sink.dfy`) covers the contract stated in `src/io/sink.h`. The sink object is the class `Sink`. Its fields are the stored samplerate and channels, a state (`Pending`, `Open`, `Closed`, `Deleted`), the index of the active backend, and a log of the writes forwarded to that backend. Each encoder backend (`apple_audio`, `sndfile`, `wavwrite`) is an oracle value `Backend`. It records whether the backend's constructor, file opening and close succeed, and its per-call frame limit. `new_aubio_sink` scans the backends in order and stops at the first one that creates a sink (`SelectBackend`). It yields null when every backend fails.

Modelling decisions:

- **Limits and return codes.** `AUBIO_MAX_SAMPLERATE` is 1536000 (192000 × 8) and `AUBIO_MAX_CHANNELS` is 1024. `AUBIO_OK` is 0 and `AUBIO_FAIL` is 1. The header that defines them (`aubio_priv.h`) is not part of this model. The model's members only use `0 < max < 2^31`. The client method `DeferredOpening` also needs 44100 ≤ `AUBIO_MAX_SAMPLERATE` and 2 ≤ `AUBIO_MAX_CHANNELS`, because it presets those values.
- **Where the samplerate is checked.** Creation follows `src/io/sink.h:32-35`: each backend's own `new` function is attempted in turn. Samplerate validation happens inside each attempt (`Creates`), so a bad samplerate makes every backend fail and creation returns null (`InvalidSamplerateCreatesNothing`). This gives the same result as checking the samplerate once before the scan. The only difference is that the backends are still attempted.
- **Facts not stated in the header.** The backend bodies and `src/io/sink.c` are not part of this model, so the model fixes three things itself:
  - a sink created with a nonzero samplerate starts with 1 channel (`DEFAULT_CHANNELS`);
  - closing a sink that is not open reports failure;
  - every accepted preset that leaves both values set asks the backend to open the file.

The method `AudioSink.DeferredOpening` is a client of the facade. It creates a sink with samplerate 0 and checks that the sink stays Pending after the samplerate preset. It then checks that the sink opens at the channel preset, and goes on to write, close and delete. It shows that the contracts below are enough for a caller to follow the deferred-opening protocol of `src/io/sink.h:74-76`.

## Model

| member | source | states |
|---|---|---|
| `IoUtils.AsSigned` | src/io/ioutils.c:27 | the `(sint_t)` view of a `uint_t` is congruent to it modulo 2^32 and lies in [-2^31, 2^31); it is ≤ 0 exactly when the value is 0 or at least 2^31 |
| `IoUtils.ValidateSamplerate` | src/io/ioutils.c:24-38 | returns OK or FAIL; FAIL for 0, for every value ≥ 2^31 and for every value above the maximum; OK exactly when 0 < samplerate ≤ AUBIO_MAX_SAMPLERATE; a pure function, so the input is untouched |
| `IoUtils.ValidateChannels` | src/io/ioutils.c:40-54 | returns OK or FAIL; FAIL for 0, for every value ≥ 2^31 and above AUBIO_MAX_CHANNELS; OK exactly when 0 < channels ≤ AUBIO_MAX_CHANNELS |
| `IoUtils.ValidateInputLength` | src/io/ioutils.c:57-77 | the result is min(write, max_size, write_data_length), at most each input and equal to one of them; it is `write` unchanged exactly when write fits both bounds; the max-size warning is taken exactly when write > max_size, the input-length warning exactly when min(write, max_size) exceeds the input length, and no warning exactly when write fits both |
| `IoUtils.ValidateInputChannels` | src/io/ioutils.c:79-91 | the result is min(sink_channels, write_data_height), never above the sink's channel count; it is sink_channels unchanged whenever the input is at least that tall; the warning is taken exactly when the input is shorter |
| `AudioSink.FirstCreatingIsFirst` | src/io/sink.h:32-35 | the chosen backend creates a sink and every backend before it refused; no backend is chosen exactly when all refuse |
| `AudioSink.FallbackHonoursPriority` | src/io/sink.h:32-50 | with the backends in the order apple_audio, sndfile, wavwrite, every compiled-in backend of higher priority than the chosen one refused |
| `AudioSink.InvalidSamplerateCreatesNothing` | src/io/sink.h:32-35 | a nonzero samplerate that fails validation makes every backend fail, so creation returns null |
| `AudioSink.SelectBackend` | src/io/sink.h:32-35 | the loop tries backends in order and stops at the first success; the result is the first creating backend, or none when all refuse; the trace of attempts is exactly the backends up to and including the chosen one, or all of them |
| `AudioSink.Sink.New` | src/io/sink.h:63-79 | null exactly when every backend fails; otherwise a fresh sink on the first creating backend; with samplerate 0 it is Pending with no file opened, otherwise it is Open with the given samplerate; backends are attempted in priority order, and every backend of higher priority than the chosen one was attempted and refused |
| `AudioSink.Sink.PresetSamplerate` | src/io/sink.h:81-96 | returns 0 or 1; a rejected samplerate changes nothing and returns 1; an accepted one is stored; if channels are not yet set it returns 0 and opens nothing; otherwise the file is opened and the result is 0 exactly when the backend opens it |
| `AudioSink.Sink.PresetChannels` | src/io/sink.h:98-113 | the same as PresetSamplerate for the channel count: the file opens only when the samplerate is already set, whichever preset comes last |
| `AudioSink.Sink.OpenFile` | src/io/sink.h:93 | called only once both samplerate and channels are set; the sink becomes Open with result 0 exactly when the backend opens the file, otherwise nothing changes and the result is 1 |
| `AudioSink.Sink.GetSamplerate` | src/io/sink.h:115-123 | returns the stored samplerate without changing anything; it is 0 (unset) or valid, and valid whenever the sink is open |
| `AudioSink.Sink.GetChannels` | src/io/sink.h:125-133 | returns the stored channel count without changing anything; it is 0 (unset) or valid, and valid whenever the sink is open |
| `AudioSink.Sink.Do` | src/io/sink.h:135-144 | appends exactly one mono write to the backend's log, of min(write, backend max size, block length) frames |
| `AudioSink.Sink.DoMulti` | src/io/sink.h:146-155 | appends exactly one multi-channel write of min(write, backend max size, block length) frames and min(sink channels, block height) channels |
| `AudioSink.Sink.Close` | src/io/sink.h:157-166 | an open sink becomes Closed, and the result is 0 exactly when the backend's close succeeds; a sink that is not open stays as it is and the result is non-zero; the backend is asked to close exactly when the sink was open |
| `AudioSink.Sink.Del` | src/io/sink.h:168-175 | an open sink is closed through its backend (one more close request) and any other sink is not; then the backend is released exactly once; afterwards the sink is Deleted with no active backend |

## Left out

- The encoders. CoreAudio ExtAudioFile, libsndfile and the native RIFF WAV writer (src/io/sink.h:37-50) are foreign libraries and file I/O. Each appears only as a `Backend` oracle of outcomes.
- Sample values. The `fvec_t`/`fmat_t` blocks hold floating-point audio. Only their length and height are kept, and a write records only the frame and channel counts forwarded.
- Diagnostics. The `AUBIO_ERR`/`AUBIO_WRN` messages and the `kind`/`path` arguments that only feed them are left out. The clamps' warnings appear as ghost out-parameters.
- Release counting across deletions. Deleting a sink twice is a use-after-free in C, so `Del` requires a sink that has not been deleted. No idempotence rule is modelled.
- Freezing after open. No rule rejects presets after the file is open: `src/io/sink.h` does not state one. The header says only that a sink to be preset "should" have been created with samplerate 0.
- `src/io/sink.c` and the backends' own source are not part of this model. So what happens to the file when it is re-opened by a later preset, or written before it is opened, is not modelled: `Do` and `DoMulti` require an open sink.
- `interfaces/python/aubio-types.h` is binding glue. `Aubio.cpp` opens and deletes a source and involves no sink.
