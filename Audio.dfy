/**
 * Capture session and sample conversion (src-tauri/src/audio.rs).
 *
 * The recorder is a two-state machine kept in its `buffer` slot: Idle when the
 * slot is empty, Recording when it holds the buffer the capture thread fills.
 * Stopping converts what was captured: down-mix to mono, resample to 16 kHz by
 * linear interpolation, then quantise every sample to a 16-bit amplitude.
 * Floating-point samples are idealised as `real`.
 */
module Audio {
  import opened Wrappers
  import opened Errors
  import opened Strings
  import opened Arith

  const TargetSampleRate: nat := 16000
  const TargetChannels: nat := 1
  const I16Max: int := 32767
  const I16Min: int := -32768

  /** A sample rate a device reports; hardware never reports 0 Hz. */
  type SampleRate = r: nat | 1 <= r witness 16000

  /** A channel count a device reports; hardware never reports 0 channels. */
  type ChannelCount = n: nat | 1 <= n witness 1

  /** Sample encodings a device may report; the capture thread builds a stream for the first three. */
  datatype SampleFormat = F32 | I16 | U16 | OtherFormat

  datatype DeviceConfig = DeviceConfig(sampleRate: SampleRate, channels: ChannelCount, format: SampleFormat)

  /**
   * What the audio host says about one input device: its name, or the failure
   * to read it (None), and its default input configuration or the error reading it.
   */
  datatype HwDevice = HwDevice(name: Option<string>, config: Result<DeviceConfig, string>)

  /** The audio host: its input devices in enumeration order (or the enumeration error) and its default input. */
  datatype Host = Host(inputDevices: Result<seq<HwDevice>, string>, defaultInput: Option<HwDevice>)

  /** An entry of the device list shown to the user: the enumeration index and the name. */
  datatype AudioDevice = AudioDevice(index: nat, name: string)

  // ---------------------------------------------------------------------------
  // Device list and device selection

  /** The name prefixes of the low-level ALSA devices that the list hides, in the order they are tested. */
  const HiddenPrefixes: seq<string> := [
    "hw:", "plughw:", "sysdefault:", "front:", "rear:", "center_lfe:", "side:",
    "surround", "iec958:", "spdif:", "hdmi:", "dmix:", "dsnoop:", "null"]

  /** A lower-cased name starts with one of the hidden prefixes. */
  predicate HasHiddenPrefix(lower: string) {
    exists i :: 0 <= i < |HiddenPrefixes| && StartsWith(lower, HiddenPrefixes[i])
  }

  /** A device name is shown iff its lower-cased form starts with none of the hidden prefixes. */
  predicate IsShown(name: string) {
    !HasHiddenPrefix(ToLower(name))
  }

  /** The name under which device `j` is listed: its own, or "Device j" when it cannot be read. */
  function DeviceName(devices: seq<HwDevice>, j: nat): (name: string)
    requires j < |devices|
    ensures devices[j].name.Some? ==> name == devices[j].name.value
    ensures devices[j].name.None? ==> name == "Device " + NatToString(j)
  {
    match devices[j].name
    case Some(n) => n
    case None => "Device " + NatToString(j)
  }

  /** Whether each device is shown, in enumeration order. */
  function ShownFlags(devices: seq<HwDevice>): (shown: seq<bool>)
    ensures |shown| == |devices|
  {
    seq(|devices|, j requires 0 <= j < |devices| => IsShown(DeviceName(devices, j)))
  }

  /** The first `n` devices, each kept with its enumeration index and name when its flag is set. */
  function Kept(devices: seq<HwDevice>, shown: seq<bool>, n: nat): seq<AudioDevice>
    requires |shown| == |devices| && n <= |devices|
  {
    if n == 0 then []
    else Kept(devices, shown, n - 1) + (if shown[n - 1] then [AudioDevice(n - 1, DeviceName(devices, n - 1))] else [])
  }

  /** The list built from the first `n` devices: each shown one with its enumeration index and name. */
  function Listed(devices: seq<HwDevice>, n: nat): seq<AudioDevice>
    requires n <= |devices|
  {
    Kept(devices, ShownFlags(devices), n)
  }

  /** Every kept entry is a flagged device among the first `n`, under its own index and name; the indices increase. */
  lemma {:induction false} KeptSound(devices: seq<HwDevice>, shown: seq<bool>, n: nat)
    requires |shown| == |devices| && n <= |devices|
    ensures forall k :: 0 <= k < |Kept(devices, shown, n)| ==>
      Kept(devices, shown, n)[k].index < n &&
      Kept(devices, shown, n)[k].name == DeviceName(devices, Kept(devices, shown, n)[k].index) &&
      shown[Kept(devices, shown, n)[k].index]
    ensures forall k, l :: 0 <= k < l < |Kept(devices, shown, n)| ==>
      Kept(devices, shown, n)[k].index < Kept(devices, shown, n)[l].index
  {
    if n > 0 {
      KeptSound(devices, shown, n - 1);
      var prev := Kept(devices, shown, n - 1);
      var kept := Kept(devices, shown, n);
      assert forall k :: 0 <= k < |prev| ==> kept[k] == prev[k];
    }
  }

  /** Every flagged device among the first `n` is kept. */
  lemma {:induction false} KeptComplete(devices: seq<HwDevice>, shown: seq<bool>, n: nat, j: nat)
    requires |shown| == |devices| && j < n <= |devices| && shown[j]
    ensures exists k :: 0 <= k < |Kept(devices, shown, n)| && Kept(devices, shown, n)[k].index == j
  {
    var prev := Kept(devices, shown, n - 1);
    var kept := Kept(devices, shown, n);
    if j < n - 1 {
      KeptComplete(devices, shown, n - 1, j);
      var k :| 0 <= k < |prev| && prev[k].index == j;
      assert kept[k] == prev[k];
    } else {
      assert kept[|prev|].index == j;
    }
  }

  /**
   * Every entry of the list of the first `n` devices is a shown device among
   * them, under its own index and name, and the indices increase.
   */
  lemma ListedSound(devices: seq<HwDevice>, n: nat)
    requires n <= |devices|
    ensures forall k :: 0 <= k < |Listed(devices, n)| ==>
      Listed(devices, n)[k].index < n &&
      Listed(devices, n)[k].name == DeviceName(devices, Listed(devices, n)[k].index) &&
      IsShown(Listed(devices, n)[k].name)
    ensures forall k, l :: 0 <= k < l < |Listed(devices, n)| ==>
      Listed(devices, n)[k].index < Listed(devices, n)[l].index
  {
    KeptSound(devices, ShownFlags(devices), n);
    forall j | 0 <= j < |devices| {
      ShownFlag(devices, j, DeviceName(devices, j));
    }
  }

  /** Every shown device among the first `n` appears in their list. */
  lemma ListedComplete(devices: seq<HwDevice>, n: nat, j: nat)
    requires j < n <= |devices| && IsShown(DeviceName(devices, j))
    ensures exists k :: 0 <= k < |Listed(devices, n)| && Listed(devices, n)[k].index == j
  {
    var shown := ShownFlags(devices);
    ShownFlag(devices, j, DeviceName(devices, j));
    KeptComplete(devices, shown, n, j);
    var k :| 0 <= k < |Kept(devices, shown, n)| && Kept(devices, shown, n)[k].index == j;
    assert Listed(devices, n)[k].index == j;
  }

  /** The flag of device `j` says whether the name it is listed under is shown. */
  lemma ShownFlag(devices: seq<HwDevice>, j: nat, name: string)
    requires j < |devices| && name == DeviceName(devices, j)
    ensures ShownFlags(devices)[j] == IsShown(name)
  {}

  /** A listed index selects, through `GetInputDevice`, the very device it was listed for. */
  lemma ListedSelects(host: Host, k: nat)
    requires host.inputDevices.Ok?
    requires k < |Listed(host.inputDevices.value, |host.inputDevices.value|)|
    ensures var d := Listed(host.inputDevices.value, |host.inputDevices.value|)[k];
      d.index < |host.inputDevices.value| &&
      GetInputDevice(Some(d.index), host) == Ok(host.inputDevices.value[d.index]) &&
      d.name == DeviceName(host.inputDevices.value, d.index)
  {
    ListedSound(host.inputDevices.value, |host.inputDevices.value|);
  }

  /** `get_input_device`: the device at an enumeration index, or the host's default input. */
  function GetInputDevice(deviceIndex: Option<nat>, host: Host): (r: Res<HwDevice>)
    ensures deviceIndex.Some? && host.inputDevices.Ok? && deviceIndex.value < |host.inputDevices.value| ==>
      r == Ok(host.inputDevices.value[deviceIndex.value])
    ensures deviceIndex.None? ==> (r.Ok? <==> host.defaultInput.Some?)
    ensures r.Err? ==> r.error.Audio?
  {
    match deviceIndex
    case Some(idx) =>
      if host.inputDevices.Err? then Err(Audio(host.inputDevices.error))
      else if idx < |host.inputDevices.value| then Ok(host.inputDevices.value[idx])
      else Err(Audio("Device index " + NatToString(idx) + " not found"))
    case None =>
      if host.defaultInput.Some? then Ok(host.defaultInput.value)
      else Err(Audio("No default input device"))
  }

  /**
   * `list_input_devices`: enumerate the host's input devices and keep the shown
   * ones. Every listed index selects, through `GetInputDevice`, the device it was
   * listed for.
   */
  method ListInputDevices(host: Host) returns (r: Res<seq<AudioDevice>>)
    ensures host.inputDevices.Err? ==> r == Err(Audio(host.inputDevices.error))
    ensures host.inputDevices.Ok? ==> r == Ok(Listed(host.inputDevices.value, |host.inputDevices.value|))
  {
    if host.inputDevices.Err? {
      return Err(Audio(host.inputDevices.error));
    }
    var all := host.inputDevices.value;
    ghost var shown := ShownFlags(all);
    var devices: seq<AudioDevice> := [];
    var index := 0;
    while index < |all|
      invariant 0 <= index <= |all|
      invariant devices == Kept(all, shown, index)
    {
      var name := DeviceName(all, index);
      var lower := ToLower(name);
      var hidden := HasHiddenPrefix(lower);
      ShownFlag(all, index, name);
      if !hidden {
        devices := devices + [AudioDevice(index, name)];
      }
      assert devices == Kept(all, shown, index + 1);
      index := index + 1;
    }
    return Ok(devices);
  }

  // ---------------------------------------------------------------------------
  // Down-mix

  function Sum(xs: seq<real>): real {
    if xs == [] then 0.0 else xs[0] + Sum(xs[1..])
  }

  /** The average of one frame of interleaved samples. */
  function Mean(frame: seq<real>): real
    requires |frame| > 0
  {
    Sum(frame) / (|frame| as real)
  }

  /** The frames of `samples`, `ch` samples each, averaged one by one; a trailing partial frame is dropped. */
  function AverageFrames(samples: seq<real>, ch: ChannelCount): (mono: seq<real>)
    ensures |mono| == |samples| / ch
    decreases |samples|
  {
    if |samples| < ch then []
    else
      var rest := AverageFrames(samples[ch..], ch);
      DivStep(|samples|, ch);
      [Mean(samples[..ch])] + rest
  }

  /** `to_mono`: the input itself for one channel, otherwise the average of every complete frame. */
  function ToMono(samples: seq<real>, channels: ChannelCount): (mono: seq<real>)
    ensures channels == 1 ==> mono == samples
    ensures |mono| == |samples| / channels
  {
    if channels == 1 then samples else AverageFrames(samples, channels)
  }

  /** Output `i` of the down-mix is the mean of the `i`-th complete frame, whatever the channel count. */
  lemma {:induction false} ToMonoFrame(samples: seq<real>, channels: ChannelCount, i: nat)
    requires i < |samples| / channels
    ensures (i + 1) * channels <= |samples|
    ensures ToMono(samples, channels)[i] == Mean(samples[i * channels..(i + 1) * channels])
  {
    if channels == 1 {
      assert samples[i..i + 1] == [samples[i]];
      assert Sum([samples[i]]) == samples[i] + Sum([]);
    } else {
      AverageFramesAt(samples, channels, i);
    }
  }

  lemma {:induction false} AverageFramesAt(samples: seq<real>, ch: ChannelCount, i: nat)
    requires i < |samples| / ch
    ensures (i + 1) * ch <= |samples|
    ensures AverageFrames(samples, ch)[i] == Mean(samples[i * ch..(i + 1) * ch])
    decreases i
  {
    if |samples| < ch {
      DivUnique(|samples|, ch, 0, |samples|);
      assert false;
    }
    DivStep(|samples|, ch);
    var rest := samples[ch..];
    assert AverageFrames(samples, ch) == [Mean(samples[..ch])] + AverageFrames(rest, ch);
    if i == 0 {
      assert samples[0..ch] == samples[..ch];
    } else {
      AverageFramesAt(rest, ch, i - 1);
      assert i * ch == (i - 1) * ch + ch;
      assert (i + 1) * ch == i * ch + ch;
      assert rest[(i - 1) * ch..i * ch] == samples[i * ch..(i + 1) * ch];
    }
  }

  /** Samples within [lo, hi] sum to a value within [n * lo, n * hi]. */
  lemma {:induction false} SumBounds(xs: seq<real>, lo: real, hi: real)
    requires forall k :: 0 <= k < |xs| ==> lo <= xs[k] <= hi
    ensures (|xs| as real) * lo <= Sum(xs) <= (|xs| as real) * hi
  {
    if xs != [] {
      SumBounds(xs[1..], lo, hi);
    }
  }

  /** A frame mean lies within the range its samples lie in. */
  lemma MeanWithin(frame: seq<real>, lo: real, hi: real)
    requires |frame| > 0
    requires forall k :: 0 <= k < |frame| ==> lo <= frame[k] <= hi
    ensures lo <= Mean(frame) <= hi
  {
    SumBounds(frame, lo, hi);
    RealDivWithin(Sum(frame), |frame| as real, lo, hi);
  }

  /** Down-mixing never leaves the range the input samples lie in. */
  lemma ToMonoWithin(samples: seq<real>, channels: ChannelCount, lo: real, hi: real)
    requires forall k :: 0 <= k < |samples| ==> lo <= samples[k] <= hi
    ensures forall i :: 0 <= i < |ToMono(samples, channels)| ==> lo <= ToMono(samples, channels)[i] <= hi
  {
    var mono := ToMono(samples, channels);
    forall i | 0 <= i < |mono| ensures lo <= mono[i] <= hi {
      ToMonoFrame(samples, channels, i);
      var frame := samples[i * channels..(i + 1) * channels];
      assert forall k :: 0 <= k < |frame| ==> frame[k] == samples[i * channels + k];
      MeanWithin(frame, lo, hi);
    }
  }

  // ---------------------------------------------------------------------------
  // Resampling

  /** `floor(len / (from / to))`: how many samples resampling produces, in exact arithmetic. */
  function ResampleLength(len: nat, fromRate: SampleRate, toRate: SampleRate): nat {
    (len * toRate) / fromRate
  }

  /** `floor(i * from / to)`: the input index output `i` starts from. */
  function SourceIndex(i: nat, fromRate: SampleRate, toRate: SampleRate): nat {
    (i * fromRate) / toRate
  }

  /** The fractional part of `i * from / to`: how far output `i` lies past its source index. */
  function Fraction(i: nat, fromRate: SampleRate, toRate: SampleRate): real {
    ((i * fromRate) % toRate) as real / toRate as real
  }

  /**
   * Output sample `i`: the linear interpolation of the two neighbours around
   * position `i * from / to`, the last input sample at the end, and 0.0 past it.
   */
  function Interpolate(samples: seq<real>, i: nat, fromRate: SampleRate, toRate: SampleRate): real {
    var idx := SourceIndex(i, fromRate, toRate);
    var frac := Fraction(i, fromRate, toRate);
    if idx + 1 < |samples| then samples[idx] * (1.0 - frac) + samples[idx + 1] * frac
    else if idx < |samples| then samples[idx]
    else 0.0
  }

  /** What `resample` returns: the input when the rates agree, otherwise every interpolated output. */
  function Resampled(samples: seq<real>, fromRate: SampleRate, toRate: SampleRate): seq<real> {
    if fromRate == toRate then samples
    else seq(ResampleLength(|samples|, fromRate, toRate), i requires 0 <= i => Interpolate(samples, i, fromRate, toRate))
  }

  /** For naturals, `a / b` is the floor of the real quotient. */
  lemma DivIsFloor(a: nat, b: nat)
    requires b > 0
    ensures ((a / b) as real) <= (a as real) / (b as real) < ((a / b + 1) as real)
    ensures (a as real) / (b as real) - ((a / b) as real) == ((a % b) as real) / (b as real)
  {
    var q, m := a / b, a % b;
    var br := b as real;
    assert a == q * b + m;
    assert (a as real) == (q as real) * br + (m as real);
    assert (a as real) / br == (q as real) + (m as real) / br;
    assert 0.0 <= (m as real) / br < 1.0;
  }

  /** The resampled length is `floor(len / ratio)` for the real ratio `from / to`. */
  lemma ResampleLengthIsFloor(len: nat, fromRate: SampleRate, toRate: SampleRate)
    ensures var n := ResampleLength(len, fromRate, toRate);
      var exact := (len as real) / ((fromRate as real) / (toRate as real));
      (n as real) <= exact < ((n + 1) as real)
  {
    DivIsFloor(len * toRate, fromRate);
    var fr, tr := fromRate as real, toRate as real;
    assert (len as real) / (fr / tr) == ((len * toRate) as real) / fr;
  }

  /** The source index is `floor(i * ratio)` and the fraction is what remains of `i * ratio`. */
  lemma SourcePositionSplit(i: nat, fromRate: SampleRate, toRate: SampleRate)
    ensures var pos := (i as real) * ((fromRate as real) / (toRate as real));
      var idx := SourceIndex(i, fromRate, toRate);
      (idx as real) <= pos < ((idx + 1) as real) &&
      Fraction(i, fromRate, toRate) == pos - (idx as real) &&
      0.0 <= Fraction(i, fromRate, toRate) < 1.0
  {
    DivIsFloor(i * fromRate, toRate);
    var fr, tr := fromRate as real, toRate as real;
    assert (i as real) * (fr / tr) == ((i * fromRate) as real) / tr;
  }

  /**
   * In exact arithmetic every output position has an input sample under it, so
   * the 0.0 branch of the interpolation is never taken.
   */
  lemma SourceIndexInRange(len: nat, fromRate: SampleRate, toRate: SampleRate, i: nat)
    requires i < ResampleLength(len, fromRate, toRate)
    ensures SourceIndex(i, fromRate, toRate) < len
  {
    var n := ResampleLength(len, fromRate, toRate);
    assert n * fromRate <= len * toRate;
    MulMono(i + 1, n, fromRate);
    assert i * fromRate < len * toRate;
    var idx := SourceIndex(i, fromRate, toRate);
    assert idx * toRate <= i * fromRate;
    if idx >= len {
      MulMono(len, idx, toRate);
    }
  }

  /** Equal rates would give the input back even through interpolation: the shortcut changes nothing. */
  lemma ResampleSameRate(samples: seq<real>, rate: SampleRate, i: nat)
    requires i < |samples|
    ensures ResampleLength(|samples|, rate, rate) == |samples|
    ensures Interpolate(samples, i, rate, rate) == samples[i]
  {
    DivUnique(|samples| * rate, rate, |samples|, 0);
    DivUnique(i * rate, rate, i, 0);
  }

  /** A weighted mean of two values within [lo, hi] is within [lo, hi]. */
  lemma BlendWithin(a: real, b: real, frac: real, lo: real, hi: real)
    requires lo <= a <= hi && lo <= b <= hi && 0.0 <= frac < 1.0
    ensures lo <= a * (1.0 - frac) + b * frac <= hi
  {
    RealMulNonneg(a - lo, 1.0 - frac);
    RealMulNonneg(b - lo, frac);
    RealMulNonneg(hi - a, 1.0 - frac);
    RealMulNonneg(hi - b, frac);
    assert (a - lo) * (1.0 - frac) + (b - lo) * frac == a * (1.0 - frac) + b * frac - lo;
    assert (hi - a) * (1.0 - frac) + (hi - b) * frac == hi - (a * (1.0 - frac) + b * frac);
  }

  /** One interpolated output sample lies within the range the input samples lie in. */
  lemma InterpolateWithin(samples: seq<real>, fromRate: SampleRate, toRate: SampleRate, lo: real, hi: real, i: nat)
    requires forall k :: 0 <= k < |samples| ==> lo <= samples[k] <= hi
    requires i < ResampleLength(|samples|, fromRate, toRate)
    ensures lo <= Interpolate(samples, i, fromRate, toRate) <= hi
  {
    SourceIndexInRange(|samples|, fromRate, toRate, i);
    SourcePositionSplit(i, fromRate, toRate);
    var idx := SourceIndex(i, fromRate, toRate);
    if idx + 1 < |samples| {
      BlendWithin(samples[idx], samples[idx + 1], Fraction(i, fromRate, toRate), lo, hi);
    }
  }

  /** Resampling never leaves the range the input samples lie in. */
  lemma ResampledWithin(samples: seq<real>, fromRate: SampleRate, toRate: SampleRate, lo: real, hi: real)
    requires forall k :: 0 <= k < |samples| ==> lo <= samples[k] <= hi
    ensures forall i :: 0 <= i < |Resampled(samples, fromRate, toRate)| ==>
      lo <= Resampled(samples, fromRate, toRate)[i] <= hi
  {
    if fromRate != toRate {
      var out := Resampled(samples, fromRate, toRate);
      forall i | 0 <= i < |out| ensures lo <= out[i] <= hi {
        InterpolateWithin(samples, fromRate, toRate, lo, hi, i);
      }
    }
  }

  /** Halving the rate keeps every other sample, starting with the first; a trailing odd sample is dropped. */
  lemma ResampleHalving(s: seq<real>, r: SampleRate)
    ensures |Resampled(s, 2 * r, r)| == |s| / 2
    ensures forall i :: 0 <= i < |s| / 2 ==> Resampled(s, 2 * r, r)[i] == s[2 * i]
  {
    DivUnique(|s| * r, 2 * r, |s| / 2, (|s| % 2) * r);
    forall i | 0 <= i < |s| / 2 ensures Interpolate(s, i, 2 * r, r) == s[2 * i] {
      DivUnique(i * (2 * r), r, 2 * i, 0);
    }
  }

  /** `resample`: linear-interpolation resampling, computed as the source does, with a real ratio. */
  method Resample(samples: seq<real>, fromRate: SampleRate, toRate: SampleRate) returns (output: seq<real>)
    ensures output == Resampled(samples, fromRate, toRate)
  {
    if fromRate == toRate {
      return samples;
    }
    var ratio := (fromRate as real) / (toRate as real);
    var outputLen := ((|samples| as real) / ratio).Floor;
    ResampleLengthIsFloor(|samples|, fromRate, toRate);
    assert outputLen == ResampleLength(|samples|, fromRate, toRate);
    output := [];
    for i := 0 to outputLen
      invariant |output| == i
      invariant forall k :: 0 <= k < i ==> output[k] == Interpolate(samples, k, fromRate, toRate)
    {
      var srcPos := (i as real) * ratio;
      var idx := srcPos.Floor;
      var frac := srcPos - (idx as real);
      SourcePositionSplit(i, fromRate, toRate);
      assert idx == SourceIndex(i, fromRate, toRate);
      var sample :=
        if idx + 1 < |samples| then samples[idx] * (1.0 - frac) + samples[idx + 1] * frac
        else if idx < |samples| then samples[idx]
        else 0.0;
      output := output + [sample];
    }
  }

  // ---------------------------------------------------------------------------
  // 16-bit quantisation

  /** `x.clamp(lo, hi)`. */
  function Clamp(x: real, lo: real, hi: real): (c: real)
    requires lo <= hi
    ensures lo <= c <= hi
    ensures lo <= x <= hi ==> c == x
  {
    if x < lo then lo else if x > hi then hi else x
  }

  /** A float-to-integer `as` cast: the fractional part is dropped, rounding toward zero. */
  function TruncateTowardZero(x: real): (n: int)
    ensures x >= 0.0 ==> 0.0 <= n as real <= x < n as real + 1.0
    ensures x < 0.0 ==> n as real - 1.0 < x <= n as real <= 0.0
  {
    if x >= 0.0 then x.Floor else -((-x).Floor)
  }

  /** The 16-bit amplitude written for one sample: `sample * 32767`, clamped to the i16 range, truncated. */
  function Amplitude(sample: real): (a: int)
    ensures I16Min <= a <= I16Max
    ensures -1.0 <= sample <= 1.0 ==> -(I16Max as real) <= a as real <= I16Max as real
  {
    TruncateTowardZero(Clamp(sample * 32767.0, -32768.0, 32767.0))
  }

  /** An amplitude differs from the scaled sample by less than one step whenever no clamping happens. */
  lemma AmplitudeError(sample: real)
    requires -1.0 <= sample <= 1.0
    ensures -1.0 < (Amplitude(sample) as real) - sample * 32767.0 < 1.0
  {
  }

  /** Samples past full scale saturate at the ends of the i16 range. */
  lemma AmplitudeSaturates(sample: real)
    ensures sample >= 1.0 ==> Amplitude(sample) == I16Max
    ensures sample * 32767.0 <= -32768.0 ==> Amplitude(sample) == I16Min
  {
  }

  datatype WavSampleFormat = IntFormat | FloatFormat

  /** The WAV header fields the recorder sets: channel count, rate, sample width and encoding. */
  datatype WavSpec = WavSpec(channels: nat, sampleRate: nat, bitsPerSample: nat, sampleFormat: WavSampleFormat)

  /** An encoded WAV file: its header fields and its integer samples in order. */
  datatype Wav = Wav(spec: WavSpec, samples: seq<int>)

  /** `encode_wav`: one 16-bit integer sample per input sample, in order. */
  method EncodeWav(samples: seq<real>, sampleRate: nat, channels: nat) returns (wav: Wav)
    ensures wav.spec == WavSpec(channels, sampleRate, 16, IntFormat)
    ensures |wav.samples| == |samples|
    ensures forall i :: 0 <= i < |samples| ==> wav.samples[i] == Amplitude(samples[i])
  {
    var spec := WavSpec(channels, sampleRate, 16, IntFormat);
    var written: seq<int> := [];
    for i := 0 to |samples|
      invariant |written| == i
      invariant forall k :: 0 <= k < i ==> written[k] == Amplitude(samples[k])
    {
      var amplitude := TruncateTowardZero(Clamp(samples[i] * (I16Max as real), I16Min as real, I16Max as real));
      written := written + [amplitude];
    }
    wav := Wav(spec, written);
  }

  // ---------------------------------------------------------------------------
  // The recorder

  /** The buffer a session fills: captured samples and the device's rate and channel count. */
  datatype RecordingBuffer = RecordingBuffer(samples: seq<real>, sourceSampleRate: SampleRate, sourceChannels: ChannelCount)

  /** The capture thread of a session, with the device and configuration it streams from. */
  datatype CaptureThread = CaptureThread(device: HwDevice, config: DeviceConfig)

  /** What stopping a session turns a buffer into: mono, at 16 kHz. */
  function ConvertedSamples(buffer: RecordingBuffer): seq<real> {
    Resampled(ToMono(buffer.samples, buffer.sourceChannels), buffer.sourceSampleRate, TargetSampleRate)
  }

  /** The WAV a stopped session yields: its converted samples as 16-bit integers, mono at 16 kHz. */
  function RecordedWav(buffer: RecordingBuffer): (wav: Wav)
    ensures wav.spec == WavSpec(TargetChannels, TargetSampleRate, 16, IntFormat)
    ensures |wav.samples| == |ConvertedSamples(buffer)|
  {
    var converted := ConvertedSamples(buffer);
    Wav(WavSpec(TargetChannels, TargetSampleRate, 16, IntFormat),
        seq(|converted|, i requires 0 <= i < |converted| => Amplitude(converted[i])))
  }

  /** What `stop_recording` returns for the recorder's buffer slot. */
  function StopOutcome(buffer: Option<RecordingBuffer>): Res<Wav> {
    match buffer
    case None => Err(Audio("Not recording"))
    case Some(b) => Ok(RecordedWav(b))
  }

  /**
   * Stopping fails exactly when no session is running; otherwise the WAV is
   * mono at 16 kHz with 16-bit integer samples, one per converted sample,
   * each that sample's amplitude.
   */
  lemma StopYieldsRecording(buffer: Option<RecordingBuffer>)
    ensures buffer.None? ==> StopOutcome(buffer) == Err(Audio("Not recording"))
    ensures buffer.Some? ==> (
      var r := StopOutcome(buffer);
      var converted := ConvertedSamples(buffer.value);
      r.Ok? &&
      r.value.spec == WavSpec(TargetChannels, TargetSampleRate, 16, IntFormat) &&
      |r.value.samples| == |converted| &&
      forall i :: 0 <= i < |r.value.samples| ==> r.value.samples[i] == Amplitude(converted[i]))
  {
  }

  /** The device and configuration `start_recording` probes before it changes anything. */
  function Probe(deviceIndex: Option<nat>, host: Host): (r: Res<(HwDevice, DeviceConfig)>)
    ensures r.Ok? ==> r.value.0.config == Ok(r.value.1)
    ensures r.Err? ==> r.error.Audio?
  {
    match GetInputDevice(deviceIndex, host)
    case Err(e) => Err(e)
    case Ok(device) =>
      match device.config
      case Err(msg) => Err(Audio(msg))
      case Ok(config) => Ok((device, config))
  }

  class AudioRecorder {
    var buffer: Option<RecordingBuffer>
    var recordingThread: Option<CaptureThread>

    /** Both slots are filled together and emptied together. */
    ghost predicate Valid()
      reads this
    {
      buffer.Some? <==> recordingThread.Some?
    }

    /** The recorder is in the Recording state. */
    predicate IsRecording()
      reads this
    {
      buffer.Some?
    }

    constructor ()
      ensures Valid() && buffer.None? && recordingThread.None?
    {
      buffer := None;
      recordingThread := None;
    }

    /**
     * `start_recording`: refuses a second start; otherwise probes the device and
     * its configuration first, so that a failed probe leaves the recorder Idle.
     */
    method StartRecording(deviceIndex: Option<nat>, host: Host) returns (r: Res<()>)
      requires Valid()
      modifies this
      ensures Valid()
      ensures old(buffer).Some? ==>
        r == Err(Audio("Already recording")) && buffer == old(buffer) && recordingThread == old(recordingThread)
      ensures old(buffer).None? && Probe(deviceIndex, host).Err? ==>
        r == Err(Probe(deviceIndex, host).error) && buffer.None? && recordingThread.None?
      ensures old(buffer).None? && Probe(deviceIndex, host).Ok? ==>
        var (device, config) := Probe(deviceIndex, host).value;
        r == Ok(()) &&
        buffer == Some(RecordingBuffer([], config.sampleRate, config.channels)) &&
        recordingThread == Some(CaptureThread(device, config))
    {
      if buffer.Some? {
        return Err(Audio("Already recording"));
      }
      var device :- GetInputDevice(deviceIndex, host);
      if device.config.Err? {
        return Err(Audio(device.config.error));
      }
      var config := device.config.value;
      buffer := Some(RecordingBuffer([], config.sampleRate, config.channels));
      recordingThread := Some(CaptureThread(device, config));
      return Ok(());
    }

    /**
     * The capture callback: a chunk the hardware delivered is appended to the
     * buffer. Only a stream in a supported format exists to call it.
     */
    method Capture(chunk: seq<real>)
      requires Valid() && recordingThread.Some? && recordingThread.value.config.format != OtherFormat
      modifies this
      ensures Valid() && recordingThread == old(recordingThread)
      ensures buffer == Some(old(buffer).value.(samples := old(buffer).value.samples + chunk))
    {
      buffer := Some(buffer.value.(samples := buffer.value.samples + chunk));
    }

    /**
     * `stop_recording`: fails when Idle; otherwise takes the buffer and the thread
     * and encodes the converted capture. Either way the recorder ends Idle.
     */
    method StopRecording() returns (r: Res<Wav>)
      requires Valid()
      modifies this
      ensures Valid() && buffer.None? && recordingThread.None?
      ensures r == StopOutcome(old(buffer))
    {
      if buffer.None? {
        return Err(Audio("Not recording"));
      }
      var taken := buffer.value;
      buffer := None;
      recordingThread := None;
      var mono := ToMono(taken.samples, taken.sourceChannels);
      var resampled := Resample(mono, taken.sourceSampleRate, TargetSampleRate);
      var wav := EncodeWav(resampled, TargetSampleRate, TargetChannels);
      assert wav.samples == RecordedWav(taken).samples;
      return Ok(wav);
    }
  }
}
