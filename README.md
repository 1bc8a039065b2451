# Sampler instrument: configuration, request normalisation and buffer loading

This project models the core of the `Sampler` instrument of smplr
(`src/sampler.ts`). A sampler is built from an audio context and a partial
configuration. It resolves that configuration against its defaults, builds a
player, and fills the player's key-to-buffer registry. The registry is filled
either by a caller-supplied loader function or by a default loader. The default
loader stores pre-decoded buffers as they are and fetches and decodes string
sources. The sampler also turns the loose arguments of `start` and `stop` into
the request objects it forwards to the player.

Modules:

- `Wrappers` (wrappers.dfy): `Option` (JavaScript's `undefined`, with `GetOr` for `??`) and `Result`.
- `Platform` (platform.dfy): opaque handles for audio nodes, contexts, buffers, storages, gain curves, custom loaders and load errors. Each handle carries an id, so equality of handles is identity of JavaScript objects.
- `Config` (config.dfy): `SamplerConfig`, the partial `Options`, and `ResolveConfig`, which is what the constructor stores in `#options`.
- `Requests` (requests.dfy): the `start` and `stop` argument shapes and their normalisation.
- `Loading` (loading.dfy): loader selection, the `Registry` class, the order-free specification of the default loader (`AfterDefaultLoad`), the same steps run in a given order (`ApplyInOrder`), and the default loader as a loop over the keys taken in arbitrary order (`RunDefaultLoader`).
- `Instrument` (instrument.dfy): the `Player` as far as the sampler relies on it, the `Sampler` class and a client scenario.

External collaborators become parameters. `loadAudioBuffer(context, name, storage)` is a function value `FetchDecode` returning `None` for every failure. It also takes the key whose step makes the call, because every key makes its own call: two keys naming the same file may load or fail independently and get distinct buffers. A function-valued `buffers` is run through a function value `CustomRun`, which returns the registry it leaves and the error, if any, its promise rejects with.

Three behaviours of the code are modelled exactly as written:

- `detune` is 0 whatever `options.detune` is (src/sampler.ts:40).
- `decayTime`, `lpfCutoffHz` and `storage` are not copied into `#options` (src/sampler.ts:38-45).
- `Promise.all` gets an array holding the array of per-key promises (src/sampler.ts:90-100), so `loaded()` does not wait for the per-key loads. The model describes the registry after every per-key write has run and says nothing about when `loaded()` resolves.

## Model

| member | source | states |
|---|---|---|
| `Config.ResolveConfig` | src/sampler.ts:38-45 | `destination`, `volume`, `velocity`, `buffers` and `volumeToGain` are the supplied value when one is given, else `context.destination`, 100, 100, the empty record and `midiVelToGain`; `detune` is always 0; `storage`, `decayTime` and `lpfCutoffHz` are absent |
| `Config.NoOptionsGivesDefaults` | src/sampler.ts:36-45 | the default `{}` options resolve to the all-defaults record |
| `Config.ResolveIgnoresOtherFields` | src/sampler.ts:38-45 | two option sets that agree on the five copied fields resolve to the same record, so `detune`, `storage`, `decayTime` and `lpfCutoffHz` in the options have no effect |
| `Config.ResolveIsFixpoint` | src/sampler.ts:38-45 | resolving a resolved record, with every field supplied, gives it back unchanged |
| `Requests.NormaliseStart` | src/sampler.ts:64-68 | an object argument is forwarded unchanged; a bare key `k` is forwarded as exactly `{ note: k }` |
| `Requests.NormaliseStop` | src/sampler.ts:70-78 | nothing is forwarded exactly when the argument is omitted; an object is forwarded unchanged; a bare id `i` is forwarded as `{ stopId: i }` |
| `Requests.StartNoteIsNoteObject` | src/sampler.ts:64-68 | `start(k)` forwards the same request as `start({ note: k })`, whose note is `k` |
| `Requests.StopIdIsStopObject` | src/sampler.ts:70-78 | `stop(i)` forwards the same request as `stop({ stopId: i })` |
| `Requests.NormaliseIsIdempotent` | src/sampler.ts:64-78 | feeding a forwarded request back in forwards it unchanged |
| `Loading.SelectLoader` | src/sampler.ts:47-51 | a function-valued `buffers` is the loader, exactly when `buffers` is a function; otherwise the default loader over the record, with the supplied storage or `HttpStorage` |
| `Loading.Step` | src/sampler.ts:91-98 | the per-key step writes at most its own key: a pre-decoded buffer as it is, a name's buffer when its load yields one, and otherwise leaves the registry as it was |
| `Loading.AfterDefaultLoad` | src/sampler.ts:89-100 | after the default loader, each pre-decoded buffer is stored under its key as that same buffer; each name that loads is stored as the loaded buffer; every key outside the record, with another kind of value, or whose name did not load keeps its old entry or stays absent; no key outside the old registry and the record appears |
| `Loading.ApplyInOrderWrites` | src/sampler.ts:89-100 | running the per-key steps in any sequence writes exactly the writes of the keys it lists, whatever their order or repetition |
| `Loading.LoadOrderIrrelevant` | src/sampler.ts:89-100 | every processing order of `Object.keys(source)` leaves the registry `AfterDefaultLoad` describes |
| `Loading.SameNameLoadsPerKey` | src/sampler.ts:91-97 | two keys naming the same file get separate loads: one can fail while the other loads, and two successes can be distinct buffers |
| `Loading.RunDefaultLoader` | src/sampler.ts:85-102 | the loop over the keys, taken in arbitrary order, leaves the registry `AfterDefaultLoad` describes and changes nothing else |
| `Instrument.Player.constructor` | src/sampler.ts:46 | the player is built with the resolved configuration and a new registry; that the registry starts empty is assumed, since the player's code is not shown |
| `Instrument.Sampler.constructor` | src/sampler.ts:34-53 | `#options` is the resolved configuration, the player is new and built with it, the loader is the selected one, and the registry is what that loader leaves; the default loader never rejects, a custom loader's rejection is kept |
| `Instrument.Sampler.Loaded` | src/sampler.ts:55-58 | returns the sampler itself exactly when the load resolved, otherwise fails with the load's own error; every call observes the same settled load |

## Left out

- `output` and `disconnect` (src/sampler.ts:60-62, 80-82) only delegate to the player and are not modelled. Neither is what `start` and `stop` do with the forwarded request: the player is not part of this model.
- Player internals are not part of this model. `Player` keeps only its configuration and a registry; that the registry starts empty is assumed, since the player's code is not shown.
- `loadAudioBuffer`, `Storage`/`HttpStorage` fetching and audio decoding are network and decoder calls. They are the parameter `FetchDecode`, and every failure is `None`.
- `midiVelToGain` and any `volumeToGain` are floating-point curves in code not shown. They are compared by identity only.
- Promise timing, the concurrent fan-out and the point at which `loaded()` resolves are left out. In the model the load runs to completion inside the constructor.
- Instrument.Sampler.constructor: a custom loader is modelled only through what it returns. How it writes into the registry, in what order, and what it wrote before rejecting are all folded into the returned registry. A custom loader that throws synchronously, so that the constructor itself throws at src/sampler.ts:52, is not modelled: the model only has a promise that settles.
- `SampleStart` and `SampleStop` keep only `note`, `velocity`, `detune`, `stopId` and `time`; other optional fields of the player's request types are not part of this model.
- Numbers are `real`: NaN, infinities and `null` passed where `undefined` is expected (`typeof null === "object"`) are not modelled.
