/** The sink facade: an opaque object that writes blocks of audio frames to a
    file through whichever compiled-in backend agreed to create it.

    The encoders themselves (CoreAudio, libsndfile, native WAV writing) are
    not modelled; each one is an oracle, a `Backend` value that says whether
    its constructor, its file opening and its closing succeed, and how many
    frames it writes in one call. */
module AudioSink {
  import opened IoUtils

  datatype Option<T> = None | Some(value: T)

  /** The backends the library may be compiled with. */
  datatype BackendKind = AppleAudio | Sndfile | Wavwrite

  /** Position of a backend in the fixed order in which creation tries them. */
  function Rank(k: BackendKind): (r: nat)
  {
    match k
    case AppleAudio => 0
    case Sndfile => 1
    case Wavwrite => 2
  }

  /** The outcome of each request a backend can receive. */
  datatype Backend = Backend(
    kind: BackendKind,
    constructs: bool,   // its `new` function allocates and accepts the uri
    opens: bool,        // it succeeds in opening the file for writing
    closes: bool,       // closing the file succeeds
    maxSize: uint32)    // frames it writes in one call at most

  /** The compiled-in backends appear in priority order, each kind at most once. */
  ghost predicate InPriorityOrder(backends: seq<Backend>)
  {
    forall i, j :: 0 <= i < j < |backends| ==> Rank(backends[i].kind) < Rank(backends[j].kind)
  }

  /** Whether a backend's own `new` function returns a sink for `samplerate`:
      with samplerate 0 it is only constructed and opens nothing; otherwise
      the samplerate must pass validation and the file must open. */
  predicate Creates(b: Backend, samplerate: uint32)
  {
    b.constructs && (samplerate == 0 || (ValidateSamplerate(samplerate) == AUBIO_OK && b.opens))
  }

  /** The index of the first backend, from `from` on, that creates a sink. */
  function FirstCreating(backends: seq<Backend>, samplerate: uint32, from: nat): (r: Option<nat>)
    requires from <= |backends|
    decreases |backends| - from
  {
    if from == |backends| then None
    else if Creates(backends[from], samplerate) then Some(from)
    else FirstCreating(backends, samplerate, from + 1)
  }

  /** `FirstCreating` finds the first creating backend, and finds none only
      when every backend refuses. */
  lemma {:induction false} FirstCreatingIsFirst(backends: seq<Backend>, samplerate: uint32, from: nat)
    requires from <= |backends|
    ensures var r := FirstCreating(backends, samplerate, from);
      (r.Some? ==>
        from <= r.value < |backends| && Creates(backends[r.value], samplerate) &&
        forall j :: from <= j < r.value ==> !Creates(backends[j], samplerate)) &&
      (r.None? <==> forall j :: from <= j < |backends| ==> !Creates(backends[j], samplerate))
    decreases |backends| - from
  {
    if from < |backends| && !Creates(backends[from], samplerate) {
      FirstCreatingIsFirst(backends, samplerate, from + 1);
    }
  }

  /** With backends in priority order, the chosen backend is preceded by a
      refusal of every compiled-in backend of higher priority. */
  lemma FallbackHonoursPriority(backends: seq<Backend>, samplerate: uint32)
    requires InPriorityOrder(backends)
    requires FirstCreating(backends, samplerate, 0).Some?
    ensures var i := FirstCreating(backends, samplerate, 0).value;
      i < |backends| &&
      forall j :: 0 <= j < |backends| && Rank(backends[j].kind) < Rank(backends[i].kind) ==>
        !Creates(backends[j], samplerate)
  {
    FirstCreatingIsFirst(backends, samplerate, 0);
  }

  /** A nonzero samplerate that fails validation makes every backend fail,
      so creation yields no sink. */
  lemma InvalidSamplerateCreatesNothing(backends: seq<Backend>, samplerate: uint32)
    requires samplerate != 0 && ValidateSamplerate(samplerate) == AUBIO_FAIL
    ensures FirstCreating(backends, samplerate, 0) == None
  {
    FirstCreatingIsFirst(backends, samplerate, 0);
  }

  /** The fallback scan of `new_aubio_sink`: try each backend in order and
      stop at the first that creates a sink. `tried` lists the backends
      attempted, in the order they were attempted. */
  method SelectBackend(backends: seq<Backend>, samplerate: uint32)
    returns (chosen: Option<nat>, ghost tried: seq<BackendKind>)
    ensures chosen == FirstCreating(backends, samplerate, 0)
    ensures chosen.Some? ==>
      chosen.value < |backends| && Creates(backends[chosen.value], samplerate) &&
      forall j :: 0 <= j < chosen.value ==> !Creates(backends[j], samplerate)
    ensures chosen.None? <==> forall j :: 0 <= j < |backends| ==> !Creates(backends[j], samplerate)
    ensures |tried| == (if chosen.Some? then chosen.value + 1 else |backends|)
    ensures forall k :: 0 <= k < |tried| ==> tried[k] == backends[k].kind
  {
    chosen, tried := None, [];
    var i := 0;
    while i < |backends|
      invariant 0 <= i <= |backends|
      invariant |tried| == i
      invariant forall k :: 0 <= k < i ==> tried[k] == backends[k].kind
      invariant forall j :: 0 <= j < i ==> !Creates(backends[j], samplerate)
      invariant FirstCreating(backends, samplerate, i) == FirstCreating(backends, samplerate, 0)
    {
      tried := tried + [backends[i].kind];
      if Creates(backends[i], samplerate) {
        chosen := Some(i);
        return;
      }
      i := i + 1;
    }
  }

  /** Where a sink stands: created but not yet writing to a file, writing,
      closed, or deleted. */
  datatype SinkState = Pending | Open | Closed | Deleted

  /** One write forwarded to the active backend: the frames and, for a
      multi-channel write, the channels it carries after clamping. */
  datatype Write = Mono(frames: uint32) | Multi(frames: uint32, channels: uint32)

  /** The channel count a sink created with a nonzero samplerate starts with. */
  const DEFAULT_CHANNELS: uint32 := 1

  class Sink {
    const backends: seq<Backend>
    const uri: string
    var samplerate: uint32         // 0 until set
    var channels: uint32           // 0 until set
    var state: SinkState
    var activeBackend: Option<nat> // index into `backends` of the backend that created the sink
    var written: seq<Write>        // the writes forwarded to the backend, in order
    ghost var releases: nat        // times the backend was released
    ghost var closeCalls: nat      // times the backend was asked to close the file

    ghost predicate Valid()
      reads this
    {
      InPriorityOrder(backends) &&
      (activeBackend.Some? <==> state != Deleted) &&
      (activeBackend.Some? ==> activeBackend.value < |backends|) &&
      (samplerate == 0 || ValidateSamplerate(samplerate) == AUBIO_OK) &&
      (channels == 0 || ValidateChannels(channels) == AUBIO_OK) &&
      (state == Open ==> samplerate != 0 && channels != 0) &&
      releases == (if state == Deleted then 1 else 0)
    }

    /** The backend this sink forwards to. */
    function Active(): (b: Backend)
      reads this
      requires Valid() && state != Deleted
    {
      backends[activeBackend.value]
    }

    constructor Init(backends: seq<Backend>, uri: string, samplerate: uint32, active: nat)
      requires InPriorityOrder(backends)
      requires active < |backends| && Creates(backends[active], samplerate)
      ensures Valid()
      ensures this.backends == backends && this.uri == uri && activeBackend == Some(active)
      ensures this.samplerate == samplerate
      ensures channels == (if samplerate == 0 then 0 else DEFAULT_CHANNELS)
      ensures state == (if samplerate == 0 then Pending else Open)
      ensures written == [] && closeCalls == 0
    {
      this.backends := backends;
      this.uri := uri;
      this.samplerate := samplerate;
      channels := if samplerate == 0 then 0 else DEFAULT_CHANNELS;
      state := if samplerate == 0 then Pending else Open;
      activeBackend := Some(active);
      written := [];
      releases := 0;
      closeCalls := 0;
    }

    /** `new_aubio_sink`: the first backend that creates a sink wins; null
        when every one fails. With samplerate 0 the sink is returned without
        opening any file. The compiled-in backends come in the fixed order
        apple_audio, sndfile, wavwrite, so they are attempted in that order. */
    static method New(backends: seq<Backend>, uri: string, samplerate: uint32)
      returns (s: Sink?, ghost tried: seq<BackendKind>)
      requires InPriorityOrder(backends)
      ensures s == null <==> forall j :: 0 <= j < |backends| ==> !Creates(backends[j], samplerate)
      ensures s != null ==>
        fresh(s) && s.Valid() &&
        s.backends == backends && s.uri == uri &&
        s.activeBackend == FirstCreating(backends, samplerate, 0) &&
        s.samplerate == samplerate &&
        s.channels == (if samplerate == 0 then 0 else DEFAULT_CHANNELS) &&
        s.state == (if samplerate == 0 then Pending else Open) &&
        s.written == [] && s.closeCalls == 0
      ensures |tried| <= |backends| && forall k :: 0 <= k < |tried| ==> tried[k] == backends[k].kind
      ensures s == null ==> |tried| == |backends|
      ensures s != null ==> |tried| == s.activeBackend.value + 1
      ensures forall i, j :: 0 <= i < j < |tried| ==> Rank(tried[i]) < Rank(tried[j])
      ensures s != null ==>
        forall j ::
          (0 <= j < |backends| && Rank(backends[j].kind) < Rank(backends[s.activeBackend.value].kind)) ==>
          j < |tried| - 1 && tried[j] == backends[j].kind && !Creates(backends[j], samplerate)
    {
      var chosen;
      chosen, tried := SelectBackend(backends, samplerate);
      if chosen.Some? {
        FallbackHonoursPriority(backends, samplerate);
        s := new Sink.Init(backends, uri, samplerate, chosen.value);
      } else {
        s := null;
      }
    }

    /** `aubio_sink_preset_samplerate`: 0 on success, 1 on error. A rejected
        value changes nothing; an accepted one is stored and, when the
        channels are already set, the file is opened. */
    method PresetSamplerate(samplerate: uint32) returns (status: uint32)
      requires Valid() && state != Deleted
      modifies this
      ensures Valid() && state != Deleted
      ensures status == AUBIO_OK || status == AUBIO_FAIL
      ensures ValidateSamplerate(samplerate) == AUBIO_FAIL ==>
        status == AUBIO_FAIL && this.samplerate == old(this.samplerate) && state == old(state)
      ensures ValidateSamplerate(samplerate) == AUBIO_OK ==>
        this.samplerate == samplerate &&
        if old(channels) == 0 then status == AUBIO_OK && state == old(state)
        else if Active().opens then status == AUBIO_OK && state == Open
        else status == AUBIO_FAIL && state == old(state)
      ensures channels == old(channels) && activeBackend == old(activeBackend)
      ensures written == old(written) && releases == old(releases) && closeCalls == old(closeCalls)
    {
      if ValidateSamplerate(samplerate) == AUBIO_FAIL {
        return AUBIO_FAIL;
      }
      this.samplerate := samplerate;
      status := AUBIO_OK;
      if channels != 0 {
        status := OpenFile();
      }
    }

    /** `aubio_sink_preset_channels`: 0 on success, 1 on error. A rejected
        value changes nothing; an accepted one is stored and, when the
        samplerate is already set, the file is opened. */
    method PresetChannels(channels: uint32) returns (status: uint32)
      requires Valid() && state != Deleted
      modifies this
      ensures Valid() && state != Deleted
      ensures status == AUBIO_OK || status == AUBIO_FAIL
      ensures ValidateChannels(channels) == AUBIO_FAIL ==>
        status == AUBIO_FAIL && this.channels == old(this.channels) && state == old(state)
      ensures ValidateChannels(channels) == AUBIO_OK ==>
        this.channels == channels &&
        if old(samplerate) == 0 then status == AUBIO_OK && state == old(state)
        else if Active().opens then status == AUBIO_OK && state == Open
        else status == AUBIO_FAIL && state == old(state)
      ensures samplerate == old(samplerate) && activeBackend == old(activeBackend)
      ensures written == old(written) && releases == old(releases) && closeCalls == old(closeCalls)
    {
      if ValidateChannels(channels) == AUBIO_FAIL {
        return AUBIO_FAIL;
      }
      this.channels := channels;
      status := AUBIO_OK;
      if samplerate != 0 {
        status := OpenFile();
      }
    }

    /** Ask the active backend to open the file once both parameters are set. */
    method OpenFile() returns (status: uint32)
      requires Valid() && state != Deleted && samplerate != 0 && channels != 0
      modifies this`state
      ensures Valid()
      ensures Active().opens ==> status == AUBIO_OK && state == Open
      ensures !Active().opens ==> status == AUBIO_FAIL && state == old(state)
    {
      if Active().opens {
        state := Open;
        status := AUBIO_OK;
      } else {
        status := AUBIO_FAIL;
      }
    }

    /** `aubio_sink_get_samplerate`: the stored samplerate, which is either
        unset (0) or a valid one, and valid whenever the file is open. */
    function GetSamplerate(): (r: uint32)
      reads this
      requires Valid() && state != Deleted
      ensures r == samplerate
      ensures r == 0 || 0 < r as int <= AUBIO_MAX_SAMPLERATE
      ensures state == Open ==> 0 < r as int <= AUBIO_MAX_SAMPLERATE
    {
      samplerate
    }

    /** `aubio_sink_get_channels`: the stored channel count, which is either
        unset (0) or a valid one, and valid whenever the file is open. */
    function GetChannels(): (r: uint32)
      reads this
      requires Valid() && state != Deleted
      ensures r == channels
      ensures r == 0 || 0 < r as int <= AUBIO_MAX_CHANNELS
      ensures state == Open ==> 0 < r as int <= AUBIO_MAX_CHANNELS
    {
      channels
    }

    /** `aubio_sink_do`: forward a mono block of `writeDataLength` frames,
        of which `write` are asked for, clamped to what can be written. */
    method Do(writeDataLength: uint32, write: uint32)
      requires Valid() && state == Open
      modifies this`written
      ensures Valid()
      ensures written == old(written) + [Mono(Min(Min(write, Active().maxSize), writeDataLength))]
    {
      var frames, _ := ValidateInputLength(Active().maxSize, writeDataLength, write);
      written := written + [Mono(frames)];
    }

    /** `aubio_sink_do_multi`: forward a block of `writeDataHeight` channels
        of `writeDataLength` frames, clamped in both directions. */
    method DoMulti(writeDataLength: uint32, writeDataHeight: uint32, write: uint32)
      requires Valid() && state == Open
      modifies this`written
      ensures Valid()
      ensures written == old(written) + [Multi(
        Min(Min(write, Active().maxSize), writeDataLength),
        Min(channels, writeDataHeight))]
    {
      var c, _ := ValidateInputChannels(channels, writeDataHeight);
      var frames, _ := ValidateInputLength(Active().maxSize, writeDataLength, write);
      written := written + [Multi(frames, c)];
    }

    /** `aubio_sink_close`: 0 on success, non-zero on failure. An open sink
        is closed whatever the backend reports; a sink that is not open has
        nothing to close and reports failure. */
    method Close() returns (status: uint32)
      requires Valid() && state != Deleted
      modifies this`state, this`closeCalls
      ensures Valid()
      ensures closeCalls == old(closeCalls) + (if old(state) == Open then 1 else 0)
      ensures old(state) == Open ==> state == Closed && (status == AUBIO_OK <==> Active().closes)
      ensures old(state) != Open ==> state == old(state) && status != AUBIO_OK
    {
      if state != Open {
        return AUBIO_FAIL;
      }
      status := if Active().closes then AUBIO_OK else AUBIO_FAIL;
      state := Closed;
      closeCalls := closeCalls + 1;
    }

    /** `del_aubio_sink`: close the sink if it is open, then release the
        backend, exactly once. */
    method Del()
      requires Valid() && state != Deleted
      modifies this
      ensures Valid()
      ensures state == Deleted && activeBackend == None && releases == old(releases) + 1
      ensures closeCalls == old(closeCalls) + (if old(state) == Open then 1 else 0)
      ensures samplerate == old(samplerate) && channels == old(channels) && written == old(written)
    {
      if state == Open {
        var _ := Close();
      }
      state := Deleted;
      activeBackend := None;
      releases := releases + 1;
    }
  }

  /** A caller of the deferred protocol: a sink created with samplerate 0
      opens its file only at the second preset. */
  method DeferredOpening(backends: seq<Backend>)
    requires InPriorityOrder(backends)
    requires |backends| > 0 && backends[0].constructs && backends[0].opens
  {
    var s, _ := Sink.New(backends, "out.wav", 0);
    assert s != null && s.state == Pending;
    var status := s.PresetSamplerate(44100);
    assert status == AUBIO_OK && s.state == Pending;
    status := s.PresetChannels(2);
    assert status == AUBIO_OK && s.state == Open;
    assert s.GetSamplerate() == 44100 && s.GetChannels() == 2;
    s.DoMulti(256, 2, 256);
    status := s.Close();
    assert s.state == Closed && s.closeCalls == 1;
    s.Del();
    assert s.closeCalls == 1;
  }
}
