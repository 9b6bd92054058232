/**
 * The model manager of src/model_manager.py: a catalog of downloadable checkpoints and a
 * bounded cache of loaded model handles kept in least-recently-used order.
 *
 * The cache is an ordered dictionary. It is modelled as the sequence of its keys, front = least
 * recently used, beside a map from key to handle. The model directory on disk is the set of ids
 * whose directory exists under the cache directory; the network download is an oracle argument
 * `fetch`: the path snapshot_download returns, or that it raised and whether it left a directory behind.
 */
module Models {
  import opened Wrappers
  import opened Seqs
  import Text

  /** One catalog entry (the `name`, `repo_id`, `type`, `size`, `min_vram_gb`, `default_steps` keys). */
  datatype Descriptor = Descriptor(
    name: string, repoId: string, kind: string, size: string, minVramGb: int, defaultSteps: int)

  const SmallModel := "wan21_t2v_1.3b"
  const LargeModel := "wan21_t2v_14b"
  const HunyuanModel := "hunyuanvideo"

  /** The built-in catalog used when the config file is absent or cannot be read. */
  function DefaultCatalog(): map<string, Descriptor>
  {
    map[
      SmallModel := Descriptor("WanGP T2V 1.3B", "wangp/wangp-t2v-1.3b", "t2v", "2.1 GB", 6, 20),
      LargeModel := Descriptor("WanGP T2V 14B", "wangp/wangp-t2v-14b", "t2v", "14.8 GB", 10, 25),
      HunyuanModel := Descriptor("HunyuanVideo", "wangp/hunyuanvideo", "t2v", "22.5 GB", 16, 30)
    ]
  }

  /** What reading the catalog file found. */
  datatype CatalogFile =
    | Missing                                        // the config path does not exist
    | Unreadable                                     // open, YAML parsing or `.get` raised
    | Parsed(models: Option<map<string, Descriptor>>)  // a top-level mapping, with or without `models`

  /** `load_model_catalog`: every failure falls back to the built-in catalog, nothing is raised. */
  function LoadModelCatalog(file: CatalogFile): map<string, Descriptor>
  {
    match file
    case Missing => DefaultCatalog()
    case Unreadable => DefaultCatalog()
    case Parsed(models) => if models.Some? then models.value else map[]
  }

  lemma CatalogFallback(file: CatalogFile)
    requires !file.Parsed?
    ensures LoadModelCatalog(file).Keys == {SmallModel, LargeModel, HunyuanModel}
    ensures LoadModelCatalog(file)[SmallModel].minVramGb == 6
    ensures LoadModelCatalog(file)[LargeModel].minVramGb == 10
    ensures LoadModelCatalog(file)[HunyuanModel].minVramGb == 16
  {
  }

  /** A loaded model: the placeholder dictionary `{"id": ..., "path": ...}` built on a miss. */
  datatype Handle = Handle(id: string, path: string)

  /** The exceptions `load_model` and `download_model` let escape. */
  datatype LoadError =
    | UnknownModel(id: string)    // ValueError: the id is not in the catalog
    | DownloadFailed(id: string)  // snapshot_download raised; re-raised unchanged
    | EvictFromEmpty              // KeyError: popitem on an empty cache (only when the bound is <= 0)

  /** The values fixed at construction. */
  datatype ManagerConfig = ManagerConfig(cacheDir: string, maxModels: int, catalog: map<string, Descriptor>)

  /** The state `load_model` reads and changes: cache key order (front = least recently used), handles, disk. */
  datatype CacheState = CacheState(order: seq<string>, entries: map<string, Handle>, onDisk: set<string>)

  /** What one `snapshot_download` call did. */
  datatype Fetch =
    | Fetched(path: string)            // returned the local directory
    | FetchFailed(partialDir: bool)    // raised; `partialDir` when the model directory was created anyway

  datatype DownloadOutcome = DownloadOutcome(result: Result<string, LoadError>, onDisk: set<string>, fetched: bool)

  /** What one `load_model` call returns and leaves behind, and which entry it evicted. */
  datatype LoadOutcome = LoadOutcome(
    result: Result<Handle, LoadError>, state: CacheState, fetched: bool, evicted: Option<string>)

  /** The most ids the cache may hold under a bound `maxModels`. */
  function Capacity(maxModels: int): nat
  {
    if maxModels < 0 then 0 else maxModels
  }

  /** `OrderedDict.pop(id)` on the key order. */
  function Remove(order: seq<string>, id: string): (r: seq<string>)
    ensures forall x :: x in r <==> x in order && x != id
    ensures |r| <= |order|
  {
    if order == [] then []
    else if order[0] == id then Remove(order[1..], id)
    else [order[0]] + Remove(order[1..], id)
  }

  lemma {:induction false} RemoveAbsent(order: seq<string>, id: string)
    requires id !in order
    ensures Remove(order, id) == order
  {
    if order != [] {
      RemoveAbsent(order[1..], id);
    }
  }

  /** On distinct keys, popping `order[k]` deletes exactly position `k` and keeps every other key's place. */
  lemma {:induction false} RemoveAt(order: seq<string>, k: nat)
    requires Distinct(order) && k < |order|
    ensures Remove(order, order[k]) == order[..k] + order[k + 1..]
  {
    if k == 0 {
      assert order[0] !in order[1..];
      RemoveAbsent(order[1..], order[0]);
    } else {
      RemoveAt(order[1..], k - 1);
      assert order[1..][k - 1] == order[k];
      assert order[1..][..k - 1] == order[1..k];
      assert order[1..][k..] == order[k + 1..];
      assert [order[0]] + order[1..k] == order[..k];
    }
  }

  /** `download_model`: unknown ids raise, a present directory is reused, otherwise fetch. */
  function DownloadSpec(cfg: ManagerConfig, onDisk: set<string>, id: string, fetch: Fetch): (d: DownloadOutcome)
    ensures d.result.Success? ==> id in cfg.catalog && id in d.onDisk
    ensures d.fetched <==> id in cfg.catalog && id !in onDisk
    ensures d.onDisk == onDisk || (d.fetched && d.onDisk == onDisk + {id})
  {
    if id !in cfg.catalog then DownloadOutcome(Failure(UnknownModel(id)), onDisk, false)
    else if id in onDisk then DownloadOutcome(Success(Text.JoinPath(cfg.cacheDir, id)), onDisk, false)
    else match fetch
      case FetchFailed(partial) =>
        DownloadOutcome(Failure(DownloadFailed(id)), if partial then onDisk + {id} else onDisk, true)
      case Fetched(path) => DownloadOutcome(Success(path), onDisk + {id}, true)
  }

  /** The tail of a `load_model` miss: evict the front entry when the cache is full, then append. */
  function AdmitSpec(cfg: ManagerConfig, s: CacheState, model: Handle): LoadOutcome
  {
    if |s.order| >= cfg.maxModels then
      if s.order == [] then
        LoadOutcome(Failure(EvictFromEmpty), s, false, None)
      else
        LoadOutcome(Success(model),
                    s.(order := s.order[1..] + [model.id], entries := (s.entries - {s.order[0]})[model.id := model]),
                    false, Some(s.order[0]))
    else
      LoadOutcome(Success(model), s.(order := s.order + [model.id], entries := s.entries[model.id := model]),
                  false, None)
  }

  /** `load_model`: a hit moves the id to the back; a miss downloads, evicts the front when full, appends. */
  function LoadSpec(cfg: ManagerConfig, s: CacheState, id: string, fetch: Fetch): (o: LoadOutcome)
    ensures o.result.Success? ==>
      && id in o.state.entries && o.state.entries[id] == o.result.value
      && o.state.order != [] && o.state.order[|o.state.order| - 1] == id
  {
    if id in s.entries then
      LoadOutcome(Success(s.entries[id]), s.(order := Remove(s.order, id) + [id]), false, None)
    else
      var d := DownloadSpec(cfg, s.onDisk, id, fetch);
      if d.result.Failure? then
        LoadOutcome(Failure(d.result.error), s.(onDisk := d.onDisk), d.fetched, None)
      else
        AdmitSpec(cfg, s.(onDisk := d.onDisk), Handle(id, d.result.value)).(fetched := d.fetched)
  }

  /**
   * The cache invariant: keys unique, the key order and the handle map agree, every handle records
   * its own id, every cached id is in the catalog and on disk, and the bound holds.
   */
  ghost predicate Consistent(cfg: ManagerConfig, s: CacheState)
  {
    && Distinct(s.order)
    && (forall id :: id in s.entries <==> id in s.order)
    && (forall id :: id in s.entries ==> s.entries[id].id == id && id in cfg.catalog && id in s.onDisk)
    && |s.order| <= Capacity(cfg.maxModels)
  }

  lemma DistinctAppend(order: seq<string>, id: string)
    requires Distinct(order) && id !in order
    ensures Distinct(order + [id])
  {
  }

  lemma DistinctRemove(order: seq<string>, id: string)
    requires Distinct(order) && id in order
    ensures Distinct(Remove(order, id)) && |Remove(order, id)| == |order| - 1
  {
    var k :| 0 <= k < |order| && order[k] == id;
    RemoveAt(order, k);
  }

  /** A download on its own only ever adds the downloaded id to the disk, which keeps the cache invariant. */
  lemma DownloadKeepsConsistent(cfg: ManagerConfig, s: CacheState, id: string, fetch: Fetch)
    requires Consistent(cfg, s)
    ensures s.onDisk <= DownloadSpec(cfg, s.onDisk, id, fetch).onDisk
    ensures Consistent(cfg, s.(onDisk := DownloadSpec(cfg, s.onDisk, id, fetch).onDisk))
  {
  }

  /** A hit keeps the invariant: the id moves from its place to the back. */
  lemma HitKeepsConsistent(cfg: ManagerConfig, s: CacheState, id: string)
    requires Consistent(cfg, s) && id in s.entries
    ensures Consistent(cfg, s.(order := Remove(s.order, id) + [id]))
  {
    DistinctRemove(s.order, id);
    DistinctAppend(Remove(s.order, id), id);
  }

  /** Admitting a cataloged, downloaded id that is not cached keeps the invariant. */
  lemma AdmitKeepsConsistent(cfg: ManagerConfig, s: CacheState, model: Handle)
    requires Consistent(cfg, s)
    requires model.id !in s.entries && model.id in cfg.catalog && model.id in s.onDisk
    ensures Consistent(cfg, AdmitSpec(cfg, s, model).state)
  {
    if |s.order| >= cfg.maxModels && s.order != [] {
      assert s.order == [s.order[0]] + s.order[1..];
      DistinctAppend(s.order[1..], model.id);
    } else if |s.order| < cfg.maxModels {
      DistinctAppend(s.order, model.id);
    }
  }

  /** Every `load_model` call, whatever it returns, keeps the cache invariant. */
  lemma LoadKeepsConsistent(cfg: ManagerConfig, s: CacheState, id: string, fetch: Fetch)
    requires Consistent(cfg, s)
    ensures Consistent(cfg, LoadSpec(cfg, s, id, fetch).state)
  {
    if id in s.entries {
      HitKeepsConsistent(cfg, s, id);
    } else {
      var d := DownloadSpec(cfg, s.onDisk, id, fetch);
      DownloadKeepsConsistent(cfg, s, id, fetch);
      if d.result.Success? {
        AdmitKeepsConsistent(cfg, s.(onDisk := d.onDisk), Handle(id, d.result.value));
      }
    }
  }

  /** With a bound of at least one, the cache never holds more than the bound. */
  lemma LoadRespectsBound(cfg: ManagerConfig, s: CacheState, id: string, fetch: Fetch)
    requires cfg.maxModels >= 1 && |s.order| <= cfg.maxModels
    requires Distinct(s.order) && forall x :: x in s.entries <==> x in s.order
    ensures |LoadSpec(cfg, s, id, fetch).state.order| <= cfg.maxModels
  {
    if id in s.entries {
      DistinctRemove(s.order, id);
    }
  }

  /** A hit returns the stored handle, moves its id from position k to the back and fetches nothing. */
  lemma HitMovesToBack(cfg: ManagerConfig, s: CacheState, id: string, fetch: Fetch, k: nat)
    requires Consistent(cfg, s) && k < |s.order| && s.order[k] == id
    ensures var o := LoadSpec(cfg, s, id, fetch);
      && o.result == Success(s.entries[id])
      && o.state == s.(order := s.order[..k] + s.order[k + 1..] + [id])
      && !o.fetched && o.evicted == None
  {
    RemoveAt(s.order, k);
  }

  /** A miss on a full cache evicts exactly the front id and appends the new one. */
  lemma MissOnFullEvictsFront(cfg: ManagerConfig, s: CacheState, id: string, fetch: Fetch)
    requires Consistent(cfg, s) && id !in s.entries && |s.order| >= cfg.maxModels && s.order != []
    requires DownloadSpec(cfg, s.onDisk, id, fetch).result.Success?
    ensures var o := LoadSpec(cfg, s, id, fetch);
      && o.result == Success(Handle(id, DownloadSpec(cfg, s.onDisk, id, fetch).result.value))
      && o.state.order == s.order[1..] + [id]
      && o.state.entries[id] == o.result.value
      && o.evicted == Some(s.order[0])
      && s.order[0] !in o.state.entries
      && forall x :: x in s.order[1..] ==> o.state.entries[x] == s.entries[x]
  {
  }

  /** A miss on a cache with room evicts nothing: the old entries stay and the new handle is appended. */
  lemma MissWithRoomKeepsAll(cfg: ManagerConfig, s: CacheState, id: string, fetch: Fetch)
    requires Consistent(cfg, s) && id !in s.entries && |s.order| < cfg.maxModels
    requires DownloadSpec(cfg, s.onDisk, id, fetch).result.Success?
    ensures var o := LoadSpec(cfg, s, id, fetch);
      && o.result == Success(Handle(id, DownloadSpec(cfg, s.onDisk, id, fetch).result.value))
      && o.state.entries[id] == o.result.value
      && o.state.order == s.order + [id]
      && o.evicted == None
      && forall x :: x in s.entries ==> o.state.entries[x] == s.entries[x]
  {
  }

  /** An id that is neither cached nor in the catalog raises before anything changes. */
  lemma UnknownIdChangesNothing(cfg: ManagerConfig, s: CacheState, id: string, fetch: Fetch)
    requires id !in s.entries && id !in cfg.catalog
    ensures LoadSpec(cfg, s, id, fetch) == LoadOutcome(Failure(UnknownModel(id)), s, false, None)
  {
  }

  /**
   * A failed download propagates before anything is admitted: the key order and the handles stay as they
   * were, and the disk gains the id only when a partial directory was left behind.
   */
  lemma FailedDownloadChangesNothing(cfg: ManagerConfig, s: CacheState, id: string, fetch: Fetch)
    requires id !in s.entries && id in cfg.catalog && id !in s.onDisk && fetch.FetchFailed?
    ensures var o := LoadSpec(cfg, s, id, fetch);
      && o.result == Failure(DownloadFailed(id)) && o.fetched && o.evicted == None
      && o.state.order == s.order && o.state.entries == s.entries
      && o.state.onDisk == (if fetch.partialDir then s.onDisk + {id} else s.onDisk)
  {
  }

  /**
   * A failed download that left a partial directory behind is never retried: the next load of the same id
   * finds the directory, skips the fetch and succeeds with that directory's path.
   */
  lemma PartialDirectoryMasksFailure(cfg: ManagerConfig, s: CacheState, id: string, fetch: Fetch)
    requires Consistent(cfg, s) && cfg.maxModels >= 1
    requires id !in s.entries && id in cfg.catalog && id !in s.onDisk
    ensures var o1 := LoadSpec(cfg, s, id, FetchFailed(true));
      var o2 := LoadSpec(cfg, o1.state, id, fetch);
      && o1.result == Failure(DownloadFailed(id)) && o1.fetched
      && !o2.fetched && o2.result == Success(Handle(id, Text.JoinPath(cfg.cacheDir, id)))
  {
    DownloadKeepsConsistent(cfg, s, id, FetchFailed(true));
  }

  /** A model whose directory exists is not fetched; its handle records that directory. */
  lemma PresentDirectorySkipsFetch(cfg: ManagerConfig, s: CacheState, id: string, fetch: Fetch)
    requires Consistent(cfg, s) && cfg.maxModels >= 1
    requires id !in s.entries && id in cfg.catalog && id in s.onDisk
    ensures var o := LoadSpec(cfg, s, id, fetch);
      && !o.fetched && o.state.onDisk == s.onDisk
      && o.result == Success(Handle(id, Text.JoinPath(cfg.cacheDir, id)))
      && o.state.entries[id] == o.result.value
  {
  }

  /** Only a known id whose directory is absent is ever fetched. */
  lemma FetchOnlyWhenAbsent(cfg: ManagerConfig, s: CacheState, id: string, fetch: Fetch)
    requires LoadSpec(cfg, s, id, fetch).fetched
    ensures id in cfg.catalog && id !in s.entries && id !in s.onDisk
  {
  }

  /** Loading the same id twice in a row fetches at most once and returns the same handle. */
  lemma SecondLoadIsHit(cfg: ManagerConfig, s: CacheState, id: string, fetch1: Fetch, fetch2: Fetch)
    requires LoadSpec(cfg, s, id, fetch1).result.Success?
    ensures var o1 := LoadSpec(cfg, s, id, fetch1);
      var o2 := LoadSpec(cfg, o1.state, id, fetch2);
      && !o2.fetched && o2.result == o1.result && o2.state.entries == o1.state.entries
  {
  }

  /** With a bound of zero or less the cache stays empty, and a successful download still ends in KeyError. */
  lemma NonPositiveBoundMissRaises(cfg: ManagerConfig, s: CacheState, id: string, fetch: Fetch)
    requires Consistent(cfg, s) && cfg.maxModels <= 0 && id in cfg.catalog && (id in s.onDisk || fetch.Fetched?)
    ensures var o := LoadSpec(cfg, s, id, fetch);
      && o.result == Failure(EvictFromEmpty) && o.state.order == [] && id in o.state.onDisk
  {
  }

  /** Bound 2 and the calls A, B, A, C: after the third call the order is [B, A]; the fourth evicts B, leaving [A, C]. */
  lemma LruTrace(dir: string)
    ensures
      var cfg := ManagerConfig(dir, 2, DefaultCatalog());
      var a, b, c := SmallModel, LargeModel, HunyuanModel;
      var o1 := LoadSpec(cfg, CacheState([], map[], {}), a, Fetched(dir + "/" + a));
      var o2 := LoadSpec(cfg, o1.state, b, Fetched(dir + "/" + b));
      var o3 := LoadSpec(cfg, o2.state, a, FetchFailed(false));
      var o4 := LoadSpec(cfg, o3.state, c, Fetched(dir + "/" + c));
      && o3.state.order == [b, a] && o3.result == o1.result
      && o4.state.order == [a, c] && o4.evicted == Some(b)
      && o4.state.entries.Keys == {a, c}
  {
    var a, b := SmallModel, LargeModel;
    assert a != b;
    assert Remove([a, b], a) == [b];
  }

  class ModelManager {
    const modelCacheDir: string
    const maxModelsInMemory: int
    /** `get_model_catalog` returns this field. */
    const modelCatalog: map<string, Descriptor>

    var cacheOrder: seq<string>
    var cacheEntries: map<string, Handle>
    /** Ids whose directory exists under the cache directory. */
    var onDisk: set<string>
    /** Ids snapshot_download was called for, in order. */
    ghost var fetchLog: seq<string>
    /** Ids removed by `popitem(last=False)`, in order. */
    ghost var evictLog: seq<string>

    function Config(): ManagerConfig
    {
      ManagerConfig(modelCacheDir, maxModelsInMemory, modelCatalog)
    }

    function State(): CacheState
      reads this
    {
      CacheState(cacheOrder, cacheEntries, onDisk)
    }

    ghost predicate Valid()
      reads this
    {
      Consistent(Config(), State())
    }

    constructor (modelCacheDir: string, catalogFile: CatalogFile, maxModelsInMemory: int, onDisk: set<string>)
      ensures Valid()
      ensures this.modelCacheDir == modelCacheDir && this.maxModelsInMemory == maxModelsInMemory
      ensures modelCatalog == LoadModelCatalog(catalogFile)
      ensures cacheOrder == [] && cacheEntries == map[] && this.onDisk == onDisk
      ensures fetchLog == [] && evictLog == []
    {
      this.modelCacheDir := modelCacheDir;
      this.maxModelsInMemory := maxModelsInMemory;
      modelCatalog := LoadModelCatalog(catalogFile);
      cacheOrder, cacheEntries := [], map[];
      this.onDisk := onDisk;
      fetchLog, evictLog := [], [];
    }

    method DownloadModel(modelId: string, fetch: Fetch) returns (r: Result<string, LoadError>)
      modifies this`onDisk, this`fetchLog
      ensures var d := DownloadSpec(Config(), old(onDisk), modelId, fetch);
        && r == d.result && onDisk == d.onDisk
        && fetchLog == old(fetchLog) + (if d.fetched then [modelId] else [])
      ensures modelId !in modelCatalog ==> r == Failure(UnknownModel(modelId)) && unchanged(this)
    {
      if modelId !in modelCatalog {
        return Failure(UnknownModel(modelId));
      }
      if modelId in onDisk {
        return Success(Text.JoinPath(modelCacheDir, modelId));
      }
      fetchLog := fetchLog + [modelId];
      match fetch {
        case FetchFailed(partial) =>
          if partial {
            onDisk := onDisk + {modelId};
          }
          r := Failure(DownloadFailed(modelId));
        case Fetched(path) =>
          onDisk := onDisk + {modelId};
          r := Success(path);
      }
    }

    method LoadModel(modelId: string, fetch: Fetch) returns (r: Result<Handle, LoadError>)
      requires Valid()
      modifies this
      ensures Valid()
      ensures var o := LoadSpec(Config(), old(State()), modelId, fetch);
        && r == o.result && State() == o.state
        && fetchLog == old(fetchLog) + (if o.fetched then [modelId] else [])
        && evictLog == old(evictLog) + (if o.evicted.Some? then [o.evicted.value] else [])
    {
      ghost var s0 := State();
      if modelId in cacheEntries {
        HitKeepsConsistent(Config(), s0, modelId);
        var model := cacheEntries[modelId];
        cacheOrder, cacheEntries := Remove(cacheOrder, modelId), cacheEntries - {modelId};
        cacheOrder, cacheEntries := cacheOrder + [modelId], cacheEntries[modelId := model];
        assert cacheEntries == s0.entries;
        return Success(model);
      }
      DownloadKeepsConsistent(Config(), s0, modelId, fetch);
      var path := DownloadModel(modelId, fetch);
      if path.Failure? {
        return Failure(path.error);
      }
      AdmitKeepsConsistent(Config(), State(), Handle(modelId, path.value));
      r := AddToCache(Handle(modelId, path.value));
    }

    /** Admit a freshly loaded model: when the cache is full, `popitem(last=False)` drops its oldest entry first. */
    method AddToCache(model: Handle) returns (r: Result<Handle, LoadError>)
      modifies this`cacheOrder, this`cacheEntries, this`evictLog
      ensures var o := AdmitSpec(Config(), old(State()), model);
        && r == o.result && State() == o.state
        && evictLog == old(evictLog) + (if o.evicted.Some? then [o.evicted.value] else [])
    {
      if |cacheOrder| >= maxModelsInMemory {
        if cacheOrder == [] {
          return Failure(EvictFromEmpty);
        }
        var lru := cacheOrder[0];
        cacheOrder, cacheEntries := cacheOrder[1..], cacheEntries - {lru};
        evictLog := evictLog + [lru];
      }
      cacheOrder, cacheEntries := cacheOrder + [model.id], cacheEntries[model.id := model];
      r := Success(model);
    }
  }

  /** `ModelDownloader`: a download entry point over its own manager (default bound 2). */
  class ModelDownloader {
    const modelManager: ModelManager

    constructor (modelCacheDir: string, catalogFile: CatalogFile, onDisk: set<string>)
      ensures fresh(modelManager) && modelManager.Valid()
      ensures modelManager.modelCacheDir == modelCacheDir && modelManager.maxModelsInMemory == 2
      ensures modelManager.modelCatalog == LoadModelCatalog(catalogFile) && modelManager.onDisk == onDisk
    {
      modelManager := new ModelManager(modelCacheDir, catalogFile, 2, onDisk);
    }

    /** Without `modelInfo` the id is checked here; with it, the manager's own check still rejects unknown ids. */
    method DownloadModel(modelId: string, modelInfo: Option<Descriptor>, fetch: Fetch)
      returns (r: Result<string, LoadError>)
      requires modelManager.Valid()
      modifies modelManager`onDisk, modelManager`fetchLog
      ensures modelManager.Valid()
      ensures modelId !in modelManager.modelCatalog ==>
        r == Failure(UnknownModel(modelId)) && unchanged(modelManager)
      ensures var d := DownloadSpec(modelManager.Config(), old(modelManager.onDisk), modelId, fetch);
        && r == d.result && modelManager.onDisk == d.onDisk
        && modelManager.fetchLog == old(modelManager.fetchLog) + (if d.fetched then [modelId] else [])
    {
      if modelInfo.None? {
        if modelId !in modelManager.modelCatalog {
          return Failure(UnknownModel(modelId));
        }
      }
      DownloadKeepsConsistent(modelManager.Config(), modelManager.State(), modelId, fetch);
      r := modelManager.DownloadModel(modelId, fetch);
    }
  }
}
