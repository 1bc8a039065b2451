/** The `Sampler` instrument (src/sampler.ts:29-83): it resolves its
    configuration, builds its player, selects a loader and runs it against the
    player's registry. */
module Instrument {
  import opened Wrappers
  import opened Platform
  import opened Config
  import opened Loading

  /** What a custom loader leaves behind: the registry it wrote and, if its
      promise rejected, the error. */
  datatype CustomOutcome = CustomOutcome(entries: map<string, Buffer>, error: Option<LoadError>)

  /** A caller-supplied loader run to completion on the context and the registry. */
  type CustomRun = (CustomLoader, AudioContext, map<string, Buffer>) -> CustomOutcome

  /** The part of the player the sampler relies on: the configuration it was
      built with and its registry, which starts empty. */
  class Player {
    const config: SamplerConfig
    const buffers: Registry

    constructor(context: AudioContext, config: SamplerConfig)
      ensures this.config == config
      ensures fresh(buffers) && buffers.entries == map[]
    {
      this.config := config;
      buffers := new Registry();
    }
  }

  class Sampler {
    const context: AudioContext
    /** `#options` */
    const options: SamplerConfig
    const player: Player
    /** The loader selected at construction; the source keeps only the promise it returned. */
    ghost const loader: LoaderChoice
    /** How `#load` settled: `None` when it resolved, the error when it rejected. */
    const settled: Option<LoadError>

    /** Resolves the options, builds the player, selects the loader and runs it.
        `fetch` stands for `loadAudioBuffer` and `custom` for running a
        function-valued `buffers`; the state described is the one after the
        load has finished. */
    constructor(context: AudioContext, options: Options, fetch: FetchDecode, custom: CustomRun)
      ensures this.context == context
      ensures this.options == ResolveConfig(context, options)
      ensures loader == SelectLoader(this.options, options.storage)
      ensures fresh(player) && fresh(player.buffers) && player.config == this.options
      ensures loader.UseDefault? ==>
                settled.None? &&
                player.buffers.entries
                  == AfterDefaultLoad(map[], loader.source, LoadWith(fetch, context, loader.storage))
      ensures loader.UseCustom? ==>
                player.buffers.entries == custom(loader.loader, context, map[]).entries &&
                settled == custom(loader.loader, context, map[]).error
    {
      var config := ResolveConfig(context, options);
      var p := new Player(context, config);
      var choice := SelectLoader(config, options.storage);
      var outcome: Option<LoadError>;
      match choice {
        case UseCustom(l) =>
          var result := custom(l, context, p.buffers.entries);
          p.buffers.entries := result.entries;
          outcome := result.error;
        case UseDefault(source, storage) =>
          RunDefaultLoader(source, storage, context, fetch, p.buffers);
          outcome := None;
      }
      this.context := context;
      this.options := config;
      player := p;
      loader := choice;
      settled := outcome;
    }

    /** `loaded()`: the sampler itself once the load resolved, the load's error
        if it rejected. Every call observes the same single load. */
    method Loaded() returns (r: Result<Sampler, LoadError>)
      ensures settled.None? <==> r.Success?
      ensures r.Success? ==> r.value == this
      ensures r.Failure? ==> r.error == settled.value
    {
      if settled.Some? {
        r := Failure(settled.value);
      } else {
        r := Success(this);
      }
    }
  }

  /** A record with one name that loads and one that does not, and one
      pre-decoded buffer: after loading, the good name and the buffer are in the
      registry, the bad name is absent, and `loaded()` succeeds twice alike. */
  method PartialFailureScenario(context: AudioContext, custom: CustomRun) {
    var kick, piano := Buffer(1), Buffer(2);
    var fetch: FetchDecode := (c, key, name, s) => if name == "kick.wav" then Some(kick) else None;
    var source := map["60" := Url("kick.wav"), "62" := Url("bad-url"), "A" := Decoded(piano)];
    var options := NO_OPTIONS.(buffers := Some(Record(source)));
    var sampler := new Sampler(context, options, fetch, custom);
    var entries := sampler.player.buffers.entries;
    assert "60" in entries && entries["60"] == kick;
    assert "A" in entries && entries["A"] == piano;
    assert "62" !in entries by {
      assert Skipped(source, "62", LoadWith(fetch, context, HttpStorage));
    }
    var first := sampler.Loaded();
    var second := sampler.Loaded();
    assert first == second == Success(sampler);
  }
}
