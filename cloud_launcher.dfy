/**
 * `WanGPCloudLauncher` of cloud_launcher.py: the cloud platform, the launch flags chosen from the GPU
 * name and memory, the command line built from them, and the PyTorch build it installs.
 * The GPU probe and the optional-module imports are inputs; printing and subprocesses are left out.
 */
module CloudLauncher {
  import opened Wrappers
  import opened Text

  /** Environment variables that identify a platform, in the order `detect_platform` tests them. */
  const PlatformMarkers: seq<(string, string)> := [
    ("COLAB_GPU", "colab"),
    ("KAGGLE_KERNEL_RUN_TYPE", "kaggle"),
    ("SM_TRAINING_ENV", "sagemaker"),
    ("PAPERSPACE_NOTEBOOK_REPO_ID", "paperspace"),
    ("RUNPOD_POD_ID", "runpod")
  ]

  /** `detect_platform`, over the names of the variables present in `os.environ`. */
  function DetectPlatform(environ: set<string>): string
  {
    if "COLAB_GPU" in environ then "colab"
    else if "KAGGLE_KERNEL_RUN_TYPE" in environ then "kaggle"
    else if "SM_TRAINING_ENV" in environ then "sagemaker"
    else if "PAPERSPACE_NOTEBOOK_REPO_ID" in environ then "paperspace"
    else if "RUNPOD_POD_ID" in environ then "runpod"
    else "generic"
  }

  /** Reference: the platform of the first marker present, else "generic". */
  function FirstMarker(markers: seq<(string, string)>, environ: set<string>): string
  {
    if markers == [] then "generic"
    else if markers[0].0 in environ then markers[0].1
    else FirstMarker(markers[1..], environ)
  }

  lemma DetectPlatformIsFirstMatch(environ: set<string>)
    ensures DetectPlatform(environ) == FirstMarker(PlatformMarkers, environ)
  {
    var m4: seq<(string, string)> := [("RUNPOD_POD_ID", "runpod")];
    var m3 := [("PAPERSPACE_NOTEBOOK_REPO_ID", "paperspace")] + m4;
    var m2 := [("SM_TRAINING_ENV", "sagemaker")] + m3;
    var m1 := [("KAGGLE_KERNEL_RUN_TYPE", "kaggle")] + m2;
    assert PlatformMarkers == [("COLAB_GPU", "colab")] + m1;
    assert PlatformMarkers[1..] == m1 && m1[1..] == m2 && m2[1..] == m3 && m3[1..] == m4 && m4[1..] == [];
    assert FirstMarker(m4, environ) == if "RUNPOD_POD_ID" in environ then "runpod" else "generic";
    assert FirstMarker(m3, environ) == if "PAPERSPACE_NOTEBOOK_REPO_ID" in environ then "paperspace" else FirstMarker(m4, environ);
    assert FirstMarker(m2, environ) == if "SM_TRAINING_ENV" in environ then "sagemaker" else FirstMarker(m3, environ);
    assert FirstMarker(m1, environ) == if "KAGGLE_KERNEL_RUN_TYPE" in environ then "kaggle" else FirstMarker(m2, environ);
  }

  /** The part of `get_gpu_info` the settings use; `{'name': 'Unknown', 'memory_gb': 0}` without CUDA. */
  datatype GpuInfo = GpuInfo(name: string, memoryGb: real)

  const NoGpu := GpuInfo("Unknown", 0.0)

  /** The `settings` dictionary of `determine_optimal_settings`. */
  datatype LaunchSettings = LaunchSettings(model: string, profile: string, attention: string, extraFlags: seq<string>)

  const BaseFlags: seq<string> := ["--listen", "--server-port 7860", "--share"]

  /** The flags the memory bucket appends. */
  function MemoryFlags(memory: real): seq<string>
  {
    if memory >= 24.0 then ["--preload 2000"]
    else if memory >= 12.0 then ["--preload 1000"]
    else if memory >= 8.0 then ["--preload 500"]
    else ["--preload 0", "--fp16"]
  }

  predicate NameHasAny(gpuName: string, families: seq<string>)
  {
    exists i :: 0 <= i < |families| && Contains(gpuName, families[i])
  }

  /** The flag the GPU family appends, for an already lower-cased name. */
  function FamilyFlags(gpuName: string): seq<string>
  {
    if Contains(gpuName, "rtx 50") then ["--fp16"]
    else if NameHasAny(gpuName, ["rtx 30", "rtx 40", "a100", "v100"]) then ["--teacache 2.0"]
    else if NameHasAny(gpuName, ["rtx 20", "rtx 10"]) then ["--teacache 1.5"]
    else []
  }

  /** What `determine_optimal_settings` returns, given the GPU and which optional modules import. */
  function OptimalSettings(gpu: GpuInfo, sageattentionAvailable: bool, tritonAvailable: bool): LaunchSettings
  {
    var memory := gpu.memoryGb;
    LaunchSettings(
      model := if memory >= 12.0 then "--t2v-14B" else "--t2v-1-3B",
      profile := if memory >= 24.0 then "--profile 3" else "--profile 4",
      attention := if sageattentionAvailable then "--attention sage" else "--attention sdpa",
      extraFlags := BaseFlags + MemoryFlags(memory) + FamilyFlags(Lower(gpu.name))
                    + (if tritonAvailable then ["--compile"] else []))
  }

  /** `determine_optimal_settings`: defaults, then the memory bucket, the GPU family and the optional modules. */
  method DetermineOptimalSettings(gpuInfo: GpuInfo, sageattentionAvailable: bool, tritonAvailable: bool)
    returns (settings: LaunchSettings)
    ensures settings == OptimalSettings(gpuInfo, sageattentionAvailable, tritonAvailable)
  {
    var memory := gpuInfo.memoryGb;
    var gpuName := Lower(gpuInfo.name);
    settings := LaunchSettings("--t2v-1-3B", "--profile 4", "--attention sdpa", ["--listen", "--server-port 7860", "--share"]);
    if memory >= 24.0 {
      settings := settings.(model := "--t2v-14B", profile := "--profile 3");
      settings := settings.(extraFlags := settings.extraFlags + ["--preload 2000"]);
    } else if memory >= 12.0 {
      settings := settings.(model := "--t2v-14B");
      settings := settings.(extraFlags := settings.extraFlags + ["--preload 1000"]);
    } else if memory >= 8.0 {
      settings := settings.(extraFlags := settings.extraFlags + ["--preload 500"]);
    } else {
      settings := settings.(extraFlags := settings.extraFlags + ["--preload 0", "--fp16"]);
    }
    assert settings.extraFlags == BaseFlags + MemoryFlags(memory);
    if Contains(gpuName, "rtx 50") {
      settings := settings.(extraFlags := settings.extraFlags + ["--fp16"]);
    } else if NameHasAny(gpuName, ["rtx 30", "rtx 40", "a100", "v100"]) {
      settings := settings.(extraFlags := settings.extraFlags + ["--teacache 2.0"]);
    } else if NameHasAny(gpuName, ["rtx 20", "rtx 10"]) {
      settings := settings.(extraFlags := settings.extraFlags + ["--teacache 1.5"]);
    }
    assert settings.extraFlags == BaseFlags + MemoryFlags(memory) + FamilyFlags(gpuName);
    if sageattentionAvailable {
      settings := settings.(attention := "--attention sage");
    }
    if tritonAvailable {
      settings := settings.(extraFlags := settings.extraFlags + ["--compile"]);
    }
  }

  /** A `--preload N` flag. */
  predicate IsPreload(flag: string)
  {
    |flag| >= 10 && flag[..10] == "--preload "
  }

  /** The preload flags of a flag list, in order. */
  function Preloads(flags: seq<string>): seq<string>
  {
    if flags == [] then []
    else (if IsPreload(flags[0]) then [flags[0]] else []) + Preloads(flags[1..])
  }

  lemma {:induction false} PreloadsAppend(a: seq<string>, b: seq<string>)
    ensures Preloads(a + b) == Preloads(a) + Preloads(b)
  {
    if a == [] {
      assert a + b == b;
    } else {
      var ab := a + b;
      assert ab[0] == a[0] && ab[1..] == a[1..] + b;
      PreloadsAppend(a[1..], b);
      assert Preloads(ab) == (if IsPreload(a[0]) then [a[0]] else []) + Preloads(a[1..] + b);
    }
  }

  /** How often `flag` occurs in `flags`. */
  function Count(flags: seq<string>, flag: string): nat
  {
    if flags == [] then 0
    else (if flags[0] == flag then 1 else 0) + Count(flags[1..], flag)
  }

  lemma {:induction false} CountAppend(a: seq<string>, b: seq<string>, flag: string)
    ensures Count(a + b, flag) == Count(a, flag) + Count(b, flag)
  {
    if a == [] {
      assert a + b == b;
    } else {
      assert (a + b)[0] == a[0] && (a + b)[1..] == a[1..] + b;
      CountAppend(a[1..], b, flag);
    }
  }

  /** The preload budget of the memory bucket. */
  function PreloadFor(memory: real): string
  {
    if memory >= 24.0 then "--preload 2000"
    else if memory >= 12.0 then "--preload 1000"
    else if memory >= 8.0 then "--preload 500"
    else "--preload 0"
  }

  lemma FamilyFlagsAtMostOne(gpuName: string)
    ensures |FamilyFlags(gpuName)| <= 1
    ensures forall f :: f in FamilyFlags(gpuName) ==> f in ["--fp16", "--teacache 2.0", "--teacache 1.5"]
  {
  }

  /** A list none of whose flags spells `--p` at its start has no preload flag. */
  lemma {:induction false} NoPreloads(flags: seq<string>)
    requires forall i :: 0 <= i < |flags| ==> |flags[i]| >= 3 && flags[i][2] != 'p'
    ensures Preloads(flags) == []
  {
    if flags != [] {
      assert "--preload "[2] == 'p';
      assert !IsPreload(flags[0]);
      NoPreloads(flags[1..]);
    }
  }

  lemma FamilyFlagsNoPreload(gpuName: string)
    ensures Preloads(FamilyFlags(gpuName)) == []
  {
    var fam := FamilyFlags(gpuName);
    FamilyFlagsAtMostOne(gpuName);
    assert "--fp16"[2] == 'f' && "--teacache 2.0"[2] == 't' && "--teacache 1.5"[2] == 't';
    assert forall i :: 0 <= i < |fam| ==> fam[i] in ["--fp16", "--teacache 2.0", "--teacache 1.5"];
    NoPreloads(fam);
  }

  lemma NoPreloadOutsideMemoryBucket(gpuName: string)
    ensures Preloads(BaseFlags) == [] && Preloads(FamilyFlags(gpuName)) == [] && Preloads(["--compile"]) == []
  {
    assert BaseFlags[0][2] == 'l' && BaseFlags[1][2] == 's' && BaseFlags[2][2] == 's';
    NoPreloads(BaseFlags);
    FamilyFlagsNoPreload(gpuName);
    assert "--compile"[2] == 'c';
    NoPreloads(["--compile"]);
  }

  lemma MemoryBucketPreload(memory: real)
    ensures Preloads(MemoryFlags(memory)) == [PreloadFor(memory)]
  {
    var flags := MemoryFlags(memory);
    assert IsPreload(flags[0]) && flags[0] == PreloadFor(memory);
    if memory < 8.0 {
      assert "--fp16"[2] == 'f' && !IsPreload(flags[1]);
      assert flags[1..][1..] == [];
      assert Preloads(flags[1..]) == [];
    } else {
      assert flags[1..] == [];
    }
  }

  /** Exactly one memory bucket fires, so the flags carry exactly one preload flag, with that bucket's budget. */
  lemma ExactlyOnePreload(gpu: GpuInfo, sage: bool, triton: bool)
    ensures Preloads(OptimalSettings(gpu, sage, triton).extraFlags) == [PreloadFor(gpu.memoryGb)]
  {
    var mem := MemoryFlags(gpu.memoryGb);
    var fam := FamilyFlags(Lower(gpu.name));
    var tail: seq<string> := if triton then ["--compile"] else [];
    assert OptimalSettings(gpu, sage, triton).extraFlags == BaseFlags + mem + fam + tail;
    NoPreloadOutsideMemoryBucket(Lower(gpu.name));
    MemoryBucketPreload(gpu.memoryGb);
    assert Preloads(tail) == [];
    PreloadsAppend(BaseFlags + mem + fam, tail);
    PreloadsAppend(BaseFlags + mem, fam);
    PreloadsAppend(BaseFlags, mem);
  }

  /** Model and profile follow the 12 GB and 24 GB thresholds; the attention and `--compile` follow the imports. */
  lemma SettingsThresholds(gpu: GpuInfo, sage: bool, triton: bool)
    ensures var s := OptimalSettings(gpu, sage, triton);
      && (s.model == "--t2v-14B" <==> gpu.memoryGb >= 12.0)
      && (s.model == "--t2v-1-3B" <==> gpu.memoryGb < 12.0)
      && (s.profile == "--profile 3" <==> gpu.memoryGb >= 24.0)
      && (s.attention == "--attention sage" <==> sage)
      && s.extraFlags[..3] == BaseFlags
      && (s.extraFlags[|s.extraFlags| - 1] == "--compile" <==> triton)
  {
    var fam := FamilyFlags(Lower(gpu.name));
    FamilyFlagsAtMostOne(Lower(gpu.name));
    var s := OptimalSettings(gpu, sage, triton);
    assert s.extraFlags[..3] == BaseFlags;
    if !triton {
      var flags := BaseFlags + MemoryFlags(gpu.memoryGb) + fam;
      assert s.extraFlags == flags;
      if fam == [] {
        assert flags[|flags| - 1] == MemoryFlags(gpu.memoryGb)[|MemoryFlags(gpu.memoryGb)| - 1];
      } else {
        assert flags[|flags| - 1] == fam[0];
      }
    }
  }

  /** Under 8 GB on an RTX 50 card, `--fp16` is appended twice: once by the bucket and once by the family. */
  lemma LowMemoryRtx50DoublesFp16(gpu: GpuInfo, sage: bool, triton: bool)
    requires gpu.memoryGb < 8.0 && Contains(Lower(gpu.name), "rtx 50")
    ensures Count(OptimalSettings(gpu, sage, triton).extraFlags, "--fp16") == 2
  {
    var tail: seq<string> := if triton then ["--compile"] else [];
    CountAppend(BaseFlags + ["--preload 0", "--fp16"] + ["--fp16"], tail, "--fp16");
    CountAppend(BaseFlags + ["--preload 0", "--fp16"], ["--fp16"], "--fp16");
    CountAppend(BaseFlags, ["--preload 0", "--fp16"], "--fp16");
    assert Count(BaseFlags, "--fp16") == 0;
    assert Count(["--preload 0", "--fp16"], "--fp16") == 1;
  }

  /** Without a GPU the launcher picks the 1.3B model, profile 4 and a zero preload budget. */
  lemma NoGpuSafeDefaults(sage: bool, triton: bool)
    ensures var s := OptimalSettings(NoGpu, sage, triton);
      && s.model == "--t2v-1-3B" && s.profile == "--profile 4"
      && Preloads(s.extraFlags) == ["--preload 0"]
  {
    ExactlyOnePreload(NoGpu, sage, triton);
  }

  /** `WanGPCloudLauncher`: platform, GPU and settings are fixed when it is constructed. */
  class WanGPCloudLauncher {
    const platform: string
    const gpuInfo: GpuInfo
    const optimalSettings: LaunchSettings

    /**
     * `probe` is what torch reports for device 0, or None when torch does not import or CUDA is
     * unavailable; `get_gpu_info` then answers with the "Unknown", 0 GB placeholder.
     */
    constructor (environ: set<string>, probe: Option<GpuInfo>, sageattentionAvailable: bool, tritonAvailable: bool)
      ensures platform == DetectPlatform(environ)
      ensures gpuInfo == if probe.Some? then probe.value else NoGpu
      ensures optimalSettings == OptimalSettings(gpuInfo, sageattentionAvailable, tritonAvailable)
    {
      platform := DetectPlatform(environ);
      var info := if probe.Some? then probe.value else NoGpu;
      gpuInfo := info;
      var settings := DetermineOptimalSettings(info, sageattentionAvailable, tritonAvailable);
      optimalSettings := settings;
    }

    /** The PyTorch install command of `install_dependencies` (`python` is `sys.executable`). */
    method InstallDependencies(python: string) returns (pytorchCmd: seq<string>)
      ensures |pytorchCmd| == 9 && pytorchCmd[..4] == [python, "-m", "pip", "install"]
      ensures pytorchCmd[5..7] == ["torchvision", "torchaudio"] && pytorchCmd[7] == "--index-url"
      ensures pytorchCmd[4] == "torch==2.7.0" <==> Contains(Lower(gpuInfo.name), "rtx 50")
      ensures pytorchCmd[4] == "torch==2.6.0" <==> !Contains(Lower(gpuInfo.name), "rtx 50")
      ensures pytorchCmd[8] == "https://download.pytorch.org/whl/test/cu128" <==> pytorchCmd[4] == "torch==2.7.0"
      ensures pytorchCmd[8] == "https://download.pytorch.org/whl/test/cu124" <==> pytorchCmd[4] == "torch==2.6.0"
    {
      var gpuName := Lower(gpuInfo.name);
      if Contains(gpuName, "rtx 50") {
        pytorchCmd := [python, "-m", "pip", "install", "torch==2.7.0", "torchvision", "torchaudio",
                       "--index-url", "https://download.pytorch.org/whl/test/cu128"];
      } else {
        pytorchCmd := [python, "-m", "pip", "install", "torch==2.6.0", "torchvision", "torchaudio",
                       "--index-url", "https://download.pytorch.org/whl/test/cu124"];
      }
    }

    /** The command list written into `auto_launch.py`. */
    method CreateLaunchScript() returns (cmdParts: seq<string>)
      ensures cmdParts == ["python", "wgp.py", optimalSettings.model, optimalSettings.profile, optimalSettings.attention]
                          + optimalSettings.extraFlags
    {
      cmdParts := ["python", "wgp.py"];
      cmdParts := cmdParts + [optimalSettings.model, optimalSettings.profile, optimalSettings.attention];
      cmdParts := cmdParts + optimalSettings.extraFlags;
    }

    /** The command `launch` runs. */
    method Launch() returns (cmd: seq<string>)
      ensures cmd == ["python", "wgp.py", optimalSettings.model, optimalSettings.profile, optimalSettings.attention]
                     + optimalSettings.extraFlags
    {
      cmd := ["python", "wgp.py"];
      cmd := cmd + [optimalSettings.model, optimalSettings.profile, optimalSettings.attention];
      cmd := cmd + optimalSettings.extraFlags;
    }
  }

  /** The PyTorch build is the CUDA 12.8 one exactly when the family step appended `--fp16`. */
  lemma TorchPinFollowsFamilyFlag(gpuName: string)
    ensures FamilyFlags(Lower(gpuName)) == ["--fp16"] <==> Contains(Lower(gpuName), "rtx 50")
  {
  }
}
