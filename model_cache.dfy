/** The process-wide Whisper model cache: the dictionary `whisper_models` and
    `get_whisper_model`, which loads a model on the first request for its name
    and hands out the stored model afterwards. */
module ModelCache {
  import opened Wrappers

  /** A loaded Whisper model. Only its identity matters here: a cache hit hands
      out the very object that was stored. */
  class WhisperModel {
    constructor ()
    {
    }
  }

  /** What `whisper.load_model(name)` does when it is called: return a model,
      or raise with a message. */
  datatype LoadOutcome = Loaded(model: WhisperModel) | LoadFailed(message: string)

  class Cache {
    /** `whisper_models`: model name to loaded model. */
    var models: map<string, WhisperModel>
    /** Every call of `whisper.load_model`, in order, by name. */
    ghost var loadCalls: seq<string>
    /** For each cached name, the position in `loadCalls` of the load that
        produced the cached model. */
    ghost var loadedAt: map<string, nat>

    /** Every cached model came from a load call for its name, and no load
        call for that name happened after it. */
    ghost predicate Valid()
      reads this
    {
      loadedAt.Keys == models.Keys
      && forall n :: n in loadedAt ==>
           loadedAt[n] < |loadCalls| && loadCalls[loadedAt[n]] == n
           && forall j :: loadedAt[n] < j < |loadCalls| ==> loadCalls[j] != n
    }

    /** The empty dictionary at module load. */
    constructor ()
      ensures Valid() && models == map[] && loadCalls == []
    {
      models := map[];
      loadCalls := [];
      loadedAt := map[];
    }

    /** `get_whisper_model(name)`. On a hit it returns the cached model and
        calls nothing; on a miss it calls the loader once, whose behaviour on
        this call is `load`, and stores the model only if the call returned. */
    method Get(name: string, load: LoadOutcome) returns (r: Result<WhisperModel>)
      requires Valid()
      modifies this
      ensures Valid()
      ensures name in old(models) ==>
        r == Ok(old(models)[name]) && models == old(models) && loadCalls == old(loadCalls)
      ensures name !in old(models) ==> loadCalls == old(loadCalls) + [name]
      ensures name !in old(models) && load.Loaded? ==>
        r == Ok(load.model) && models == old(models)[name := load.model]
      ensures name !in old(models) && load.LoadFailed? ==>
        r == Err(load.message) && models == old(models)
      ensures r.Ok? ==> name in models && models[name] == r.value
      ensures old(models).Keys <= models.Keys
      ensures forall n :: n in old(models) ==> models[n] == old(models)[n]
    {
      if name !in models {
        loadCalls := loadCalls + [name];
        match load
        case LoadFailed(message) =>
          r := Err(message);
          return;
        case Loaded(model) =>
          models := models[name := model];
          loadedAt := loadedAt[name := |loadCalls| - 1];
      }
      r := Ok(models[name]);
    }
  }

  /** Two calls for the same name: the second never loads again after a
      successful first, and both return the same model object; after a failed
      first the second attempts the load again. */
  method GetTwice(cache: Cache, name: string, first: LoadOutcome, second: LoadOutcome)
    returns (r1: Result<WhisperModel>, r2: Result<WhisperModel>)
    requires cache.Valid()
    modifies cache
    ensures cache.Valid()
    ensures r1.Ok? ==> r2 == r1
    ensures r1.Ok? ==> |cache.loadCalls| <= |old(cache.loadCalls)| + 1
    ensures r1.Err? ==> cache.loadCalls == old(cache.loadCalls) + [name, name]
    ensures r1.Err? && second.Loaded? ==> r2 == Ok(second.model)
  {
    r1 := cache.Get(name, first);
    r2 := cache.Get(name, second);
  }
}
