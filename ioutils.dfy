/** Parameter validation and write clamping shared by every sink backend.

    The C functions take a component tag and a path that are used only in
    diagnostic messages; those two arguments are left out here. Warnings that
    the clamps print are reported through ghost out-parameters. */
module IoUtils {

  /** C's `uint_t`: a 32-bit unsigned integer. */
  newtype uint32 = x: int | 0 <= x < 0x1_0000_0000

  const TWO_31: int := 0x8000_0000
  const TWO_32: int := 0x1_0000_0000

  /** Return codes: `AUBIO_OK` is 0 and `AUBIO_FAIL` is 1. */
  const AUBIO_OK: uint32 := 0
  const AUBIO_FAIL: uint32 := 1

  /** Compile-time limits on the parameters a sink accepts. */
  const AUBIO_MAX_SAMPLERATE: int := 192000 * 8
  const AUBIO_MAX_CHANNELS: int := 1024

  /** The value C obtains by casting a `uint_t` to `sint_t`: two's complement
      on 32 bits, so every value from 2^31 on reads as negative. */
  function AsSigned(x: uint32): (v: int)
    ensures -TWO_31 <= v < TWO_31
    ensures (v - x as int) % TWO_32 == 0
    ensures v <= 0 <==> x == 0 || x as int >= TWO_31
    ensures v > 0 ==> v == x as int
  {
    if (x as int) < TWO_31 then x as int else x as int - TWO_32
  }

  /** `aubio_io_validate_samplerate`: both tests are made on the signed view. */
  function ValidateSamplerate(samplerate: uint32): (r: uint32)
    ensures r == AUBIO_OK || r == AUBIO_FAIL
    ensures samplerate == 0 || samplerate as int >= TWO_31 ==> r == AUBIO_FAIL
    ensures samplerate as int > AUBIO_MAX_SAMPLERATE ==> r == AUBIO_FAIL
    ensures r == AUBIO_OK <==> 0 < samplerate as int <= AUBIO_MAX_SAMPLERATE
  {
    if AsSigned(samplerate) <= 0 then AUBIO_FAIL
    else if AsSigned(samplerate) > AUBIO_MAX_SAMPLERATE then AUBIO_FAIL
    else AUBIO_OK
  }

  /** `aubio_io_validate_channels`: the first test is made on the signed view,
      the second on the unsigned value. */
  function ValidateChannels(channels: uint32): (r: uint32)
    ensures r == AUBIO_OK || r == AUBIO_FAIL
    ensures channels == 0 || channels as int >= TWO_31 ==> r == AUBIO_FAIL
    ensures channels as int > AUBIO_MAX_CHANNELS ==> r == AUBIO_FAIL
    ensures r == AUBIO_OK <==> 0 < channels as int <= AUBIO_MAX_CHANNELS
  {
    if AsSigned(channels) <= 0 then AUBIO_FAIL
    else if channels as int > AUBIO_MAX_CHANNELS then AUBIO_FAIL
    else AUBIO_OK
  }

  /** The smaller of two counts. */
  function Min(a: uint32, b: uint32): (m: uint32)
    ensures m <= a && m <= b
    ensures m == a || m == b
  {
    if a <= b then a else b
  }

  /** The two partial-write warnings `aubio_sink_validate_input_length` can print. */
  datatype LengthWarning =
    | ExceedsMaxSize  // more frames requested than the backend writes at once
    | ExceedsInput    // more frames requested than the input block holds

  /** `aubio_sink_validate_input_length`: the number of frames a write may
      take, narrowed first to the backend's per-call limit and then to the
      length of the block supplied. */
  method ValidateInputLength(maxSize: uint32, writeDataLength: uint32, write: uint32)
    returns (canWrite: uint32, ghost warnings: seq<LengthWarning>)
    ensures canWrite == Min(Min(write, maxSize), writeDataLength)
    ensures canWrite <= write && canWrite <= maxSize && canWrite <= writeDataLength
    ensures canWrite == write || canWrite == maxSize || canWrite == writeDataLength
    ensures canWrite == write <==> write <= maxSize && write <= writeDataLength
    ensures ExceedsMaxSize in warnings <==> write > maxSize
    ensures ExceedsInput in warnings <==> Min(write, maxSize) > writeDataLength
    ensures warnings == [] <==> write <= maxSize && write <= writeDataLength
  {
    warnings := [];
    canWrite := write;
    if write > maxSize {
      warnings := warnings + [ExceedsMaxSize];
      canWrite := maxSize;
    }
    if canWrite > writeDataLength {
      warnings := warnings + [ExceedsInput];
      canWrite := writeDataLength;
    }
  }

  /** `aubio_sink_validate_input_channels`: the number of channels a
      multi-channel write may take, narrowed to the height of the block
      supplied. */
  method ValidateInputChannels(sinkChannels: uint32, writeDataHeight: uint32)
    returns (channels: uint32, ghost warned: bool)
    ensures channels == Min(sinkChannels, writeDataHeight)
    ensures channels <= sinkChannels && channels <= writeDataHeight
    ensures writeDataHeight >= sinkChannels ==> channels == sinkChannels
    ensures warned <==> writeDataHeight < sinkChannels
  {
    channels := sinkChannels;
    warned := false;
    if writeDataHeight < sinkChannels {
      warned := true;
      channels := writeDataHeight;
    }
  }
}
