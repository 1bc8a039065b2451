/** How `start` and `stop` turn their loosely typed argument into the request
    object they forward to the player (src/sampler.ts:64-78). */
module Requests {
  import opened Wrappers

  /** A `string | number` note or stop identifier. */
  datatype NoteId = Name(s: string) | Number(n: real)

  /** A `SampleStart` object: the note and the per-event overrides this model
      keeps (the player's own type has more optional fields). */
  datatype SampleStart = SampleStart(
    note: NoteId,
    velocity: Option<real>,
    detune: Option<real>,
    stopId: Option<NoteId>,
    time: Option<real>)

  /** A `SampleStop` object. */
  datatype SampleStop = SampleStop(stopId: Option<NoteId>, time: Option<real>)

  /** The argument of `start`: an object, or a bare string or number. */
  datatype StartArg = StartObject(request: SampleStart) | StartNote(note: NoteId)

  /** The argument of `stop`: omitted (`undefined`), an object, or a bare id. */
  datatype StopArg = StopOmitted | StopObject(request: SampleStop) | StopId(id: NoteId)

  /** The object literal `{ note }`. */
  function NoteOnly(note: NoteId): SampleStart {
    SampleStart(note, None, None, None, None)
  }

  /** The object literal `{ stopId }`. */
  function StopIdOnly(id: NoteId): SampleStop {
    SampleStop(Some(id), None)
  }

  /** What `start` forwards: an object as it is, a bare key `k` as `{ note: k }`. */
  function NormaliseStart(sample: StartArg): (r: SampleStart)
    ensures sample.StartObject? ==> r == sample.request
    ensures sample.StartNote? ==> r == NoteOnly(sample.note)
  {
    match sample
    case StartObject(request) => request
    case StartNote(note) => NoteOnly(note)
  }

  /** What `stop` forwards: nothing exactly when the argument was omitted, an
      object as it is, a bare id `i` as `{ stopId: i }`. */
  function NormaliseStop(sample: StopArg): (r: Option<SampleStop>)
    ensures r.None? <==> sample.StopOmitted?
    ensures sample.StopObject? ==> r == Some(sample.request)
    ensures sample.StopId? ==> r == Some(StopIdOnly(sample.id))
  {
    match sample
    case StopObject(request) => Some(request)
    case StopOmitted => None
    case StopId(id) => Some(StopIdOnly(id))
  }

  /** `start(k)` forwards the same request as `start({ note: k })`. */
  lemma StartNoteIsNoteObject(k: NoteId)
    ensures NormaliseStart(StartNote(k)) == NormaliseStart(StartObject(NoteOnly(k)))
    ensures NormaliseStart(StartNote(k)).note == k
  {
  }

  /** `stop(i)` forwards the same request as `stop({ stopId: i })`. */
  lemma StopIdIsStopObject(i: NoteId)
    ensures NormaliseStop(StopId(i)) == NormaliseStop(StopObject(StopIdOnly(i)))
  {
  }

  /** Passing a forwarded request back in forwards it unchanged again. */
  lemma NormaliseIsIdempotent(start: StartArg, stop: StopArg)
    ensures NormaliseStart(StartObject(NormaliseStart(start))) == NormaliseStart(start)
    ensures NormaliseStop(stop).Some? ==>
              NormaliseStop(StopObject(NormaliseStop(stop).value)) == NormaliseStop(stop)
  {
  }
}
