/** Platform objects and collaborators that the sampler only passes around.
    Each is an opaque handle whose `id` stands for the identity of a JavaScript
    object reference: two handles are the same object exactly when they are equal. */
module Platform {

  /** An `AudioNode` of the Web Audio graph. */
  datatype AudioNode = AudioNode(id: nat)

  /** An `AudioContext`; `destination` is its main output node. */
  datatype AudioContext = AudioContext(id: nat, destination: AudioNode)

  /** A decoded `AudioBuffer`. */
  datatype Buffer = Buffer(id: nat)

  /** The byte-fetching collaborator: the shared `HttpStorage` object or one supplied by the caller. */
  datatype Storage = HttpStorage | CustomStorage(id: nat)

  /** A `(volume) => gain` curve, compared by identity only. */
  datatype GainCurve = GainCurve(id: nat)

  /** The library's own `midiVelToGain` curve. */
  const MIDI_VEL_TO_GAIN := GainCurve(0)

  /** A caller-supplied `AudioBuffersLoader` function. */
  datatype CustomLoader = CustomLoader(id: nat)

  /** Whatever a custom loader rejects with. */
  datatype LoadError = LoadError(id: nat)
}
