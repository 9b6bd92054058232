/**
 * `WanGPApp` of src/app.py: its configuration defaults, the directory paths it fills in from the
 * environment, and `generate_video`, which loads the model through the `ModelManager` and names
 * the output file. The environment, the CUDA flag and the GPU report are inputs.
 */
module App {
  import opened Wrappers
  import opened Text
  import Models
  import GpuUtils

  /** The `performance` entry of the configuration. */
  datatype Performance = Performance(precision: string, enableXformers: bool, cpuOffload: bool)

  const DefaultPerformance := Performance("fp16", true, false)

  /** What `GPUManager.get_detailed_info` reports; probing the hardware is not modelled. */
  datatype GpuReport = GpuReport(cudaAvailable: bool, systemRamGb: real, deviceName: Option<string>, vramTotalGb: Option<real>)

  /** The configuration dictionary; `None` is a key that is absent. */
  datatype AppConfig = AppConfig(
    paths: Option<map<string, string>>, performance: Option<Performance>, gpuInfo: Option<GpuReport>)

  /** `config or {}` when no configuration is given. */
  const EmptyConfig := AppConfig(None, None, None)

  /** `os.environ.get(name, default)`. */
  function EnvOr(environ: map<string, string>, name: string, default: string): string
  {
    if name in environ then environ[name] else default
  }

  /** `default_paths` of `setup_paths`, in the dictionary's order. */
  function DefaultPathTable(environ: map<string, string>): seq<(string, string)>
  {
    [("model_cache_dir", EnvOr(environ, "MODEL_CACHE", "./assets/models")),
     ("lora_dir", EnvOr(environ, "LORA_CACHE", "./assets/loras")),
     ("output_dir", EnvOr(environ, "OUTPUT_DIR", "./assets/outputs"))]
  }

  ghost predicate KeysDistinct(defaults: seq<(string, string)>)
  {
    forall i, j :: 0 <= i < j < |defaults| ==> defaults[i].0 != defaults[j].0
  }

  /** The paths after the "set any missing paths" loop has run over `defaults` in order. */
  function FillMissing(paths: map<string, string>, defaults: seq<(string, string)>): map<string, string>
    decreases |defaults|
  {
    if defaults == [] then paths
    else
      var (key, default) := defaults[0];
      FillMissing(if key in paths then paths else paths[key := default], defaults[1..])
  }

  /**
   * The loop only fills gaps: a key ends up present exactly when it was present or has a default,
   * present keys keep their value, and a missing key gets its default.
   */
  lemma {:induction false} FillMissingSpec(paths: map<string, string>, defaults: seq<(string, string)>, key: string)
    requires KeysDistinct(defaults)
    decreases |defaults|
    ensures var r := FillMissing(paths, defaults);
      && (key in r <==> key in paths || exists i :: 0 <= i < |defaults| && defaults[i].0 == key)
      && (key in paths ==> r[key] == paths[key])
      && (forall i :: 0 <= i < |defaults| && defaults[i].0 == key && key !in paths ==> r[key] == defaults[i].1)
  {
    if defaults != [] {
      var (k, d) := defaults[0];
      var next := if k in paths then paths else paths[k := d];
      assert KeysDistinct(defaults[1..]) by {
        forall i, j | 0 <= i < j < |defaults[1..]|
          ensures defaults[1..][i].0 != defaults[1..][j].0
        {
          assert defaults[1..][i] == defaults[i + 1] && defaults[1..][j] == defaults[j + 1];
        }
      }
      FillMissingSpec(next, defaults[1..], key);
      var r := FillMissing(paths, defaults);
      assert r == FillMissing(next, defaults[1..]);
      if key in r && key !in paths {
        if k == key {
          assert defaults[0].0 == key;
        } else {
          var i :| 0 <= i < |defaults[1..]| && defaults[1..][i].0 == key;
          assert defaults[i + 1].0 == key;
        }
      }
      if key !in r {
        forall i | 0 <= i < |defaults|
          ensures defaults[i].0 != key
        {
          if i > 0 {
            assert defaults[1..][i - 1] == defaults[i];
          }
        }
      }
      forall i | 0 <= i < |defaults| && defaults[i].0 == key && key !in paths
        ensures r[key] == defaults[i].1
      {
        if i > 0 {
          assert defaults[1..][i - 1] == defaults[i];
          assert k != key;
        }
      }
    }
  }

  /** `setup_paths`: create `paths` if absent, then copy each default in whose key is missing. */
  method SetupPaths(config: AppConfig, environ: map<string, string>) returns (updated: AppConfig)
    ensures updated == config.(paths := Some(FillMissing(
      if config.paths.Some? then config.paths.value else map[], DefaultPathTable(environ))))
  {
    var paths := if config.paths.Some? then config.paths.value else map[];
    var defaults := DefaultPathTable(environ);
    ghost var start := paths;
    var i := 0;
    while i < |defaults|
      invariant 0 <= i <= |defaults|
      invariant FillMissing(start, defaults) == FillMissing(paths, defaults[i..])
    {
      assert defaults[i..][1..] == defaults[i + 1..];
      var (key, default) := defaults[i];
      if key !in paths {
        paths := paths[key := default];
      }
      i := i + 1;
    }
    assert defaults[i..] == [];
    updated := config.(paths := Some(paths));
  }

  /** After `setup_paths` the three directories are set: a configured path wins, then the environment, then `./assets`. */
  lemma SetupPathsResolution(paths: map<string, string>, environ: map<string, string>)
    ensures var r := FillMissing(paths, DefaultPathTable(environ));
      && r.Keys == paths.Keys + {"model_cache_dir", "lora_dir", "output_dir"}
      && (forall k :: k in paths ==> r[k] == paths[k])
      && ("model_cache_dir" !in paths ==> r["model_cache_dir"] == EnvOr(environ, "MODEL_CACHE", "./assets/models"))
      && ("lora_dir" !in paths ==> r["lora_dir"] == EnvOr(environ, "LORA_CACHE", "./assets/loras"))
      && ("output_dir" !in paths ==> r["output_dir"] == EnvOr(environ, "OUTPUT_DIR", "./assets/outputs"))
  {
    var defaults := DefaultPathTable(environ);
    var r := FillMissing(paths, defaults);
    forall k | k in r
      ensures k in paths.Keys + {"model_cache_dir", "lora_dir", "output_dir"}
    {
      FillMissingSpec(paths, defaults, k);
    }
    forall k | k in paths.Keys + {"model_cache_dir", "lora_dir", "output_dir"}
      ensures k in r && (k in paths ==> r[k] == paths[k])
    {
      FillMissingSpec(paths, defaults, k);
      if k !in paths {
        assert k == defaults[0].0 || k == defaults[1].0 || k == defaults[2].0;
      }
    }
    FillMissingSpec(paths, defaults, "model_cache_dir");
    FillMissingSpec(paths, defaults, "lora_dir");
    FillMissingSpec(paths, defaults, "output_dir");
    assert defaults[0].0 == "model_cache_dir" && defaults[1].0 == "lora_dir" && defaults[2].0 == "output_dir";
  }

  /** The file name `generate_video` returns for a model, inside the output directory. */
  function OutputPath(outputDir: string, modelId: string): string
  {
    JoinPath(outputDir, "generated_video_" + modelId + ".mp4")
  }

  /** Different models never share an output path in the same directory. */
  lemma OutputPathInjective(outputDir: string, id1: string, id2: string)
    ensures OutputPath(outputDir, id1) == OutputPath(outputDir, id2) <==> id1 == id2
  {
    var n1, n2 := "generated_video_" + id1 + ".mp4", "generated_video_" + id2 + ".mp4";
    if OutputPath(outputDir, id1) == OutputPath(outputDir, id2) {
      var prefix := if outputDir == [] || outputDir[|outputDir| - 1] == '/' then outputDir else outputDir + "/";
      assert OutputPath(outputDir, id1) == prefix + n1;
      assert OutputPath(outputDir, id2) == prefix + n2;
      assert n1 == (prefix + n1)[|prefix|..];
      assert n2 == (prefix + n2)[|prefix|..];
      assert id1 == n1[16..|n1| - 4];
      assert id2 == n2[16..|n2| - 4];
    }
  }

  /** Every model of the built-in catalog has the same minimum VRAM in the GPU requirements table. */
  lemma CatalogAgreesWithRequirements(id: string)
    requires id in Models.DefaultCatalog()
    ensures GpuUtils.Lookup(GpuUtils.ModelRequirements, id).Some?
    ensures GpuUtils.Lookup(GpuUtils.ModelRequirements, id).value.minVramGb == Models.DefaultCatalog()[id].minVramGb
  {
  }

  class WanGPApp {
    var config: AppConfig
    const modelManager: Models.ModelManager
    const gpuManager: GpuUtils.GPUManager
    /** `torch.device("cuda" if available else "cpu")`, as the flag. */
    const useCuda: bool

    ghost predicate Valid()
      reads this, modelManager
    {
      && config.paths.Some? && "output_dir" in config.paths.value
      && modelManager.Valid()
    }

    /**
     * `__init__`: paths first, then the manager on the model cache directory (bound 2, catalog
     * file at its default location), then the performance and GPU-report defaults for absent keys.
     */
    constructor (config: AppConfig, environ: map<string, string>, catalogFile: Models.CatalogFile,
                 onDisk: set<string>, cudaAvailable: bool, detected: GpuReport)
      ensures Valid()
      ensures var paths := FillMissing(if config.paths.Some? then config.paths.value else map[], DefaultPathTable(environ));
        && this.config.paths == Some(paths)
        && this.config.performance == Some(if config.performance.Some? then config.performance.value else DefaultPerformance)
        && this.config.gpuInfo == Some(if config.gpuInfo.Some? then config.gpuInfo.value else detected)
        && "model_cache_dir" in paths && fresh(modelManager) && modelManager.modelCacheDir == paths["model_cache_dir"]
        && modelManager.maxModelsInMemory == 2 && modelManager.modelCatalog == Models.LoadModelCatalog(catalogFile)
        && modelManager.cacheOrder == [] && modelManager.onDisk == onDisk
      ensures fresh(gpuManager) && gpuManager.cudaAvailable == cudaAvailable && useCuda == cudaAvailable
    {
      var c := SetupPaths(config, environ);
      SetupPathsResolution(if config.paths.Some? then config.paths.value else map[], environ);
      modelManager := new Models.ModelManager(c.paths.value["model_cache_dir"], catalogFile, 2, onDisk);
      gpuManager := new GpuUtils.GPUManager(cudaAvailable);
      if c.performance.None? {
        c := c.(performance := Some(DefaultPerformance));
      }
      useCuda := cudaAvailable;
      if c.gpuInfo.None? {
        c := c.(gpuInfo := Some(detected));
      }
      this.config := c;
    }

    /**
     * `generate_video`: load the model (which may raise) and return the output path; the prompt,
     * frame count and rate are not used.
     */
    method GenerateVideo(prompt: string, modelId: string, numFrames: int, fps: int, fetch: Models.Fetch)
      returns (r: Result<string, Models.LoadError>)
      requires Valid()
      modifies modelManager
      ensures Valid()
      ensures var o := Models.LoadSpec(modelManager.Config(), old(modelManager.State()), modelId, fetch);
        && modelManager.State() == o.state
        && modelManager.fetchLog == old(modelManager.fetchLog) + (if o.fetched then [modelId] else [])
        && modelManager.evictLog == old(modelManager.evictLog) + (if o.evicted.Some? then [o.evicted.value] else [])
        && r == if o.result.Failure? then Failure(o.result.error)
                else Success(OutputPath(config.paths.value["output_dir"], modelId))
    {
      var model := modelManager.LoadModel(modelId, fetch);
      if model.Failure? {
        return Failure(model.error);
      }
      r := Success(OutputPath(config.paths.value["output_dir"], modelId));
    }
  }
}
