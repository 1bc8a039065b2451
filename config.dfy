/** The sampler's configuration record and how the constructor resolves a
    partial configuration against its defaults (src/sampler.ts:11-22, 38-45). */
module Config {
  import opened Wrappers
  import opened Platform

  /** One value of a `buffers` record: a name to fetch and decode, an already
      decoded `AudioBuffer`, or any other value (a nested record, a number, ...). */
  datatype SourceValue = Url(name: string) | Decoded(buffer: Buffer) | Other(id: nat)

  /** The `buffers` option: a key-to-source record, whose keys are strings as
      `Object.keys` returns them, or a caller-supplied loader function. */
  datatype BufferSpec = Record(entries: map<string, SourceValue>) | Custom(loader: CustomLoader)

  /** `SamplerConfig`: the optional fields are `Option`s, the others always present. */
  datatype SamplerConfig = SamplerConfig(
    storage: Option<Storage>,
    detune: real,
    volume: real,
    velocity: real,
    decayTime: Option<real>,
    lpfCutoffHz: Option<real>,
    destination: AudioNode,
    buffers: BufferSpec,
    volumeToGain: GainCurve)

  /** `Partial<SamplerConfig>`: every field may be left out. */
  datatype Options = Options(
    storage: Option<Storage>,
    detune: Option<real>,
    volume: Option<real>,
    velocity: Option<real>,
    decayTime: Option<real>,
    lpfCutoffHz: Option<real>,
    destination: Option<AudioNode>,
    buffers: Option<BufferSpec>,
    volumeToGain: Option<GainCurve>)

  /** The constructor's default argument `{}`. */
  const NO_OPTIONS := Options(None, None, None, None, None, None, None, None, None)

  const DEFAULT_VOLUME: real := 100.0
  const DEFAULT_VELOCITY: real := 100.0
  const EMPTY_RECORD := Record(map[])

  /** The record the constructor stores in `#options`. `detune` is fixed at 0
      whatever the options say, and `storage`, `decayTime` and `lpfCutoffHz` are
      not copied, so they are absent from the resolved record. */
  function ResolveConfig(context: AudioContext, options: Options): (c: SamplerConfig)
    ensures options.destination.Some? ==> c.destination == options.destination.value
    ensures options.destination.None? ==> c.destination == context.destination
    ensures c.detune == 0.0
    ensures options.volume.Some? ==> c.volume == options.volume.value
    ensures options.volume.None? ==> c.volume == DEFAULT_VOLUME
    ensures options.velocity.Some? ==> c.velocity == options.velocity.value
    ensures options.velocity.None? ==> c.velocity == DEFAULT_VELOCITY
    ensures options.buffers.Some? ==> c.buffers == options.buffers.value
    ensures options.buffers.None? ==> c.buffers == EMPTY_RECORD
    ensures options.volumeToGain.Some? ==> c.volumeToGain == options.volumeToGain.value
    ensures options.volumeToGain.None? ==> c.volumeToGain == MIDI_VEL_TO_GAIN
    ensures c.storage.None? && c.decayTime.None? && c.lpfCutoffHz.None?
  {
    SamplerConfig(
      storage := None,
      detune := 0.0,
      volume := options.volume.GetOr(DEFAULT_VOLUME),
      velocity := options.velocity.GetOr(DEFAULT_VELOCITY),
      decayTime := None,
      lpfCutoffHz := None,
      destination := options.destination.GetOr(context.destination),
      buffers := options.buffers.GetOr(EMPTY_RECORD),
      volumeToGain := options.volumeToGain.GetOr(MIDI_VEL_TO_GAIN))
  }

  /** A complete configuration handed back as a partial one, every field given. */
  function AsOptions(c: SamplerConfig): Options {
    Options(c.storage, Some(c.detune), Some(c.volume), Some(c.velocity), c.decayTime,
            c.lpfCutoffHz, Some(c.destination), Some(c.buffers), Some(c.volumeToGain))
  }

  /** With no options at all every field takes its default. */
  lemma NoOptionsGivesDefaults(context: AudioContext)
    ensures ResolveConfig(context, NO_OPTIONS)
         == SamplerConfig(None, 0.0, DEFAULT_VOLUME, DEFAULT_VELOCITY, None, None,
                          context.destination, EMPTY_RECORD, MIDI_VEL_TO_GAIN)
  {
  }

  /** The resolved record depends only on `destination`, `volume`, `velocity`,
      `buffers` and `volumeToGain`: `detune`, `storage`, `decayTime` and
      `lpfCutoffHz` in the options make no difference to it. */
  lemma ResolveIgnoresOtherFields(context: AudioContext, o1: Options, o2: Options)
    requires o1.destination == o2.destination && o1.volume == o2.volume
    requires o1.velocity == o2.velocity && o1.buffers == o2.buffers
    requires o1.volumeToGain == o2.volumeToGain
    ensures ResolveConfig(context, o1) == ResolveConfig(context, o2)
  {
  }

  /** Resolving an already resolved configuration gives it back unchanged:
      every supplied value is kept. */
  lemma ResolveIsFixpoint(context: AudioContext, options: Options)
    ensures ResolveConfig(context, AsOptions(ResolveConfig(context, options)))
         == ResolveConfig(context, options)
  {
  }
}
