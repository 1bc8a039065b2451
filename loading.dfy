/** Loader selection and the default buffer loader (src/sampler.ts:47-52, 85-102). */
module Loading {
  import opened Wrappers
  import opened Platform
  import opened Config

  /** `loadAudioBuffer(context, name, storage)` as the per-key step for `key`
      calls it: fetch through the storage and decode; `None` stands for every
      failure and for "no data". The key says which call this is: every key
      makes its own call, so two keys naming the same file may load or fail
      independently and get distinct buffers. */
  type FetchDecode = (AudioContext, string, string, Storage) -> Option<Buffer>

  /** The outcome of the per-key load for a key and the name it holds. */
  type KeyLoad = (string, string) -> Option<Buffer>

  /** The loader the constructor runs: the caller's function, or the default
      loader built over a record and a storage. */
  datatype LoaderChoice =
    | UseCustom(loader: CustomLoader)
    | UseDefault(source: map<string, SourceValue>, storage: Storage)

  /** A function-valued `buffers` is the loader; a record gets the default
      loader, with the storage from the options or `HttpStorage`. */
  function SelectLoader(config: SamplerConfig, storage: Option<Storage>): (l: LoaderChoice)
    ensures config.buffers.Custom? <==> l.UseCustom?
    ensures l.UseCustom? ==> l.loader == config.buffers.loader
    ensures l.UseDefault? ==> l.source == config.buffers.entries
    ensures l.UseDefault? && storage.Some? ==> l.storage == storage.value
    ensures l.UseDefault? && storage.None? ==> l.storage == HttpStorage
  {
    match config.buffers
    case Custom(loader) => UseCustom(loader)
    case Record(entries) => UseDefault(entries, storage.GetOr(HttpStorage))
  }

  /** The buffer the per-key step writes for one source value, if any: a decoded
      buffer itself, the loaded buffer for a name, nothing otherwise. */
  function KeyWrite(key: string, value: SourceValue, load: KeyLoad): Option<Buffer> {
    match value
    case Decoded(buffer) => Some(buffer)
    case Url(name) => load(key, name)
    case Other(_) => None
  }

  /** The writes made by the per-key steps of the keys in `done`. */
  function Writes(source: map<string, SourceValue>, done: set<string>,
                  load: KeyLoad): map<string, Buffer>
  {
    map k | k in done && k in source && KeyWrite(k, source[k], load).Some?
      :: KeyWrite(k, source[k], load).value
  }

  /** The writes of two key sets together are the writes of each, combined. */
  lemma WritesUnion(source: map<string, SourceValue>, a: set<string>, b: set<string>,
                    load: KeyLoad)
    ensures Writes(source, a + b, load) == Writes(source, a, load) + Writes(source, b, load)
  {
    var wa, wb, wab := Writes(source, a, load), Writes(source, b, load), Writes(source, a + b, load);
    assert wab.Keys == (wa + wb).Keys;
    forall k | k in wab
      ensures wab[k] == (wa + wb)[k]
    {
    }
  }

  /** A key the default loader leaves alone: not in the record, a value that is
      neither a buffer nor a string, or a name that did not load. */
  predicate Skipped(source: map<string, SourceValue>, k: string, load: KeyLoad) {
    k !in source || KeyWrite(k, source[k], load).None?
  }

  /** The registry once every per-key step of the default loader has run. */
  function AfterDefaultLoad(registry: map<string, Buffer>, source: map<string, SourceValue>,
                            load: KeyLoad): (r: map<string, Buffer>)
    ensures forall k :: k in source && source[k].Decoded? ==> k in r && r[k] == source[k].buffer
    ensures forall k :: k in source && source[k].Url? && load(k, source[k].name).Some? ==>
              k in r && r[k] == load(k, source[k].name).value
    ensures forall k :: Skipped(source, k, load) ==>
              (k in r <==> k in registry) && (k in registry ==> r[k] == registry[k])
    ensures r.Keys <= registry.Keys + source.Keys
  {
    registry + Writes(source, source.Keys, load)
  }

  /** The per-key step for `key` applied to a registry: it writes at most its
      own key, a decoded buffer as it is, a loaded name's buffer, and nothing
      for any other value or a failed load. */
  function Step(registry: map<string, Buffer>, source: map<string, SourceValue>, key: string,
                load: KeyLoad): (r: map<string, Buffer>)
    ensures forall k :: k != key ==> (k in r <==> k in registry) && (k in registry ==> r[k] == registry[k])
    ensures key in source && source[key].Decoded? ==> key in r && r[key] == source[key].buffer
    ensures key in source && source[key].Url? && load(key, source[key].name).Some? ==>
              key in r && r[key] == load(key, source[key].name).value
    ensures Skipped(source, key, load) ==> r == registry
  {
    if key in source && KeyWrite(key, source[key], load).Some?
    then registry[key := KeyWrite(key, source[key], load).value]
    else registry
  }

  /** One step adds the writes of its own key. */
  lemma StepWrites(registry: map<string, Buffer>, source: map<string, SourceValue>, key: string,
                   load: KeyLoad)
    ensures Step(registry, source, key, load) == registry + Writes(source, {key}, load)
  {
    var w := Writes(source, {key}, load);
    if key in source && KeyWrite(key, source[key], load).Some? {
      assert w == map[key := KeyWrite(key, source[key], load).value];
    } else {
      assert w == map[];
    }
  }

  lemma MapUnionAssociative(a: map<string, Buffer>, b: map<string, Buffer>, c: map<string, Buffer>)
    ensures a + b + c == a + (b + c)
  {
  }

  /** The per-key steps run one after another in the order of `keys`. */
  function ApplyInOrder(registry: map<string, Buffer>, source: map<string, SourceValue>,
                        keys: seq<string>, load: KeyLoad): map<string, Buffer>
    decreases |keys|
  {
    if keys == [] then registry
    else ApplyInOrder(Step(registry, source, keys[0], load), source, keys[1..], load)
  }

  /** Running the steps of `keys` in sequence writes exactly `Writes` over the
      keys listed, whatever their order and however often a key repeats. */
  lemma {:induction false} ApplyInOrderWrites(registry: map<string, Buffer>,
                                              source: map<string, SourceValue>,
                                              keys: seq<string>, load: KeyLoad)
    ensures ApplyInOrder(registry, source, keys, load)
         == registry + Writes(source, (set k | k in keys), load)
    decreases |keys|
  {
    if keys != [] {
      var key, rest := keys[0], keys[1..];
      var next := Step(registry, source, key, load);
      ApplyInOrderWrites(next, source, rest, load);
      var restKeys := set k | k in rest;
      StepWrites(registry, source, key, load);
      assert (set k | k in keys) == {key} + restKeys by {
        assert keys == [key] + rest;
      }
      WritesUnion(source, {key}, restKeys, load);
      MapUnionAssociative(registry, Writes(source, {key}, load), Writes(source, restKeys, load));
    }
  }

  /** Every processing order of `Object.keys(source)` leaves the same registry:
      the one `AfterDefaultLoad` describes. */
  lemma {:induction false} LoadOrderIrrelevant(registry: map<string, Buffer>,
                                               source: map<string, SourceValue>,
                                               keys: seq<string>, load: KeyLoad)
    requires forall k :: k in keys <==> k in source
    ensures ApplyInOrder(registry, source, keys, load) == AfterDefaultLoad(registry, source, load)
  {
    ApplyInOrderWrites(registry, source, keys, load);
    assert (set k | k in keys) == source.Keys;
  }

  /** Two keys that name the same file each get their own load: one may fail
      while the other loads, and two successes may be distinct buffers. */
  lemma SameNameLoadsPerKey()
    ensures var source := map["60" := Url("c4.wav"), "61" := Url("c4.wav")];
            var oneFails: KeyLoad := (key, name) => if key == "60" then Some(Buffer(1)) else None;
            var both: KeyLoad := (key, name) => if key == "60" then Some(Buffer(1)) else Some(Buffer(2));
            var r1 := AfterDefaultLoad(map[], source, oneFails);
            var r2 := AfterDefaultLoad(map[], source, both);
            "60" in r1 && "61" !in r1 && "60" in r2 && "61" in r2 && r2["60"] != r2["61"]
  {
    var source := map["60" := Url("c4.wav"), "61" := Url("c4.wav")];
    var oneFails: KeyLoad := (key, name) => if key == "60" then Some(Buffer(1)) else None;
    assert Skipped(source, "61", oneFails);
  }

  /** The key-to-buffer record the player reads on every `start`. */
  class Registry {
    var entries: map<string, Buffer>

    constructor()
      ensures entries == map[]
    {
      entries := map[];
    }
  }

  /** `loadAudioBuffer` with its context and storage fixed, as the default loader calls it. */
  function LoadWith(fetch: FetchDecode, context: AudioContext, storage: Storage): KeyLoad {
    (key, name) => fetch(context, key, name, storage)
  }

  /** The default loader built by `createAudioBuffersLoader(source, storage)`,
      run on `registry` until every per-key step has written. The keys are taken
      in an arbitrary order; a failed load writes nothing and raises nothing. */
  method RunDefaultLoader(source: map<string, SourceValue>, storage: Storage,
                          context: AudioContext, fetch: FetchDecode, registry: Registry)
    modifies registry
    ensures registry.entries == AfterDefaultLoad(old(registry.entries), source, LoadWith(fetch, context, storage))
  {
    ghost var load := LoadWith(fetch, context, storage);
    var pending := source.Keys;
    ghost var done: set<string> := {};
    while pending != {}
      invariant pending + done == source.Keys && pending !! done
      invariant registry.entries == old(registry.entries) + Writes(source, done, load)
      decreases pending
    {
      var key :| key in pending;
      var value := source[key];
      if value.Decoded? {
        registry.entries := registry.entries[key := value.buffer];
      } else if value.Url? {
        var buffer := fetch(context, key, value.name, storage);
        if buffer.Some? {
          registry.entries := registry.entries[key := buffer.value];
        }
      }
      WritesUnion(source, done, {key}, load);
      assert Writes(source, {key}, load) == if KeyWrite(key, value, load).Some? then map[key := KeyWrite(key, value, load).value] else map[];
      pending := pending - {key};
      done := done + {key};
    }
  }
}
