# WanGP core, modelled in Dafny

This project models the part of WanGP that decides things. WanGP is a text-to-video front end that runs on local machines and on cloud notebooks. The modelled parts are:

- **Model manager** (`model_manager.dfy`, module `Models`).
  - The catalog of downloadable checkpoints. Without a readable config file it falls back to three built-in models.
  - `download_model`, which reuses a model directory already on disk and otherwise fetches the snapshot.
  - `load_model`, a cache of model handles with a bound, kept in least-recently-used order. A hit moves the id to the back. A miss on a full cache pops the front.
  - The cache is an ordered dictionary. It is modelled as the sequence of its keys beside a map to the handles.
  - The pure function `LoadSpec` states one call. `Consistent` is the invariant that every call keeps.
- **GPU manager** (`gpu_utils.dfy`, module `GpuUtils`).
  - The per-model VRAM requirements table.
  - The optimal / compatible / low-memory recommendation loop.
  - The settings chosen for one model and an amount of VRAM.
- **Cloud launcher** (`cloud_launcher.dfy`, module `CloudLauncher`).
  - Platform detection from environment variables.
  - The launch flags chosen from the GPU name and memory and from which optional modules import.
  - The command line built from those flags.
  - The PyTorch build that `install_dependencies` pins.
- **Platform setup** (`platform_setup.dfy`, module `PlatformSetup`).
  - The data-path variables written into `os.environ`.
  - The table that picks a setup routine per environment.
  - Which required packages are handed to pip.
  - The success flag and final progress report of `run`.
- **Application** (`app.dfy`, module `App`).
  - `WanGPApp`'s path defaults and configuration defaults.
  - `generate_video`, which loads the model through the model manager and names the output file.

Support modules:

- `wrappers.dfy`: `Option` and `Result`.
- `text.dfy`: Python's `in`, `find`, `lower`, `strip`, `split` and `os.path.join` on strings.
- `seqs.dfy`: distinctness, and order-preserving subsequences.

Objects whose fields the source updates in place are classes with `modifies` clauses: `ModelManager`, `WanGPApp`, and `os.environ` as `OsEnviron`. Each method is proved against a pure function of the old state, and the properties are lemmas about those functions.

The outside world enters as parameters:

- `fetch`: the path `snapshot_download` returned, or that it raised, together with whether it left the model directory behind.
- `onDisk`: the set of model directories that exist.
- `installed`: the keys of the installed-package index.
- Whether each setup routine and the common setup steps raised.
- The CUDA flag, the GPU torch reports (or none), and the detected GPU report.
- The environment, as a map or as the set of variable names present.
- The current directory.

VRAM and memory sizes are exact `real` numbers.

## Model

| member | source | states |
|---|---|---|
| Models.DefaultCatalog | src/model_manager.py:65-97 | The three built-in models with their repository ids, sizes, minimum VRAM and default steps (keys and minimum VRAM stated by `CatalogFallback`) |
| Models.LoadModelCatalog | src/model_manager.py:44-63 | A missing file or a read or parse error gives the built-in catalog; a parsed file gives its `models` entry, or nothing when that is absent (the fallback half stated by `CatalogFallback`) |
| Models.DownloadSpec | src/model_manager.py:108-143 | A successful download is of a catalogued id whose directory then exists; a fetch happens exactly for a catalogued id without a directory; the disk gains at most that id, and only when fetched |
| Models.AdmitSpec | src/model_manager.py:172-182 | The evict-then-insert tail of a miss (stated by `AdmitKeepsConsistent`, `MissOnFullEvictsFront` and `MissWithRoomKeepsAll`) |
| Models.LoadSpec | src/model_manager.py:145-183 | A successful load leaves the returned handle cached under its id, as the most recently used entry |
| Models.CatalogFallback | src/model_manager.py:44-97 | A missing or unreadable catalog file yields exactly the three built-in models, with minimum VRAM 6, 10 and 16 GB |
| Models.Remove | src/model_manager.py:159 | Popping an id leaves exactly the other keys, and never lengthens the order |
| Models.RemoveAt | src/model_manager.py:157-160 | On distinct keys, popping the key at position k deletes exactly that position and keeps every other key in place |
| Models.DownloadKeepsConsistent | src/model_manager.py:108-143 | A download only ever adds to the set of model directories, so the cache invariant survives it |
| Models.HitKeepsConsistent | src/model_manager.py:157-162 | Moving a cached id to the back keeps keys unique, order and handles in agreement, and the bound |
| Models.AdmitKeepsConsistent | src/model_manager.py:172-182 | Admitting a catalogued, downloaded, uncached model, after the eviction when full, keeps the cache invariant |
| Models.LoadKeepsConsistent | src/model_manager.py:145-184 | Every `load_model` call, whether it succeeds or raises, keeps the cache invariant |
| Models.LoadRespectsBound | src/model_manager.py:172-182 | With a bound of at least one, the cache never holds more models than the bound |
| Models.HitMovesToBack | src/model_manager.py:157-162 | A hit returns the stored handle, moves the id from its position to the back, fetches nothing and evicts nothing |
| Models.MissOnFullEvictsFront | src/model_manager.py:172-182 | A successful miss on a full cache returns `Handle(id, path)` stored under the id, evicts exactly the least recently used id, appends the new id, and keeps the other handles |
| Models.MissWithRoomKeepsAll | src/model_manager.py:165-182 | A successful miss with room returns `Handle(id, path)` stored under the id, appends the id, evicts nothing and keeps every old handle |
| Models.UnknownIdChangesNothing | src/model_manager.py:118-119 | An id that is neither cached nor catalogued raises `ValueError` and changes neither the cache nor the disk |
| Models.FailedDownloadChangesNothing | src/model_manager.py:133-143 | A failing snapshot download is re-raised before anything is admitted: key order and handles are unchanged, nothing is evicted, and the disk gains the id only when a partial directory was left |
| Models.PartialDirectoryMasksFailure | src/model_manager.py:127-143 | A failing snapshot download that left a partial directory is re-raised, and the next load of that id skips the fetch and succeeds with the directory's path |
| Models.PresentDirectorySkipsFetch | src/model_manager.py:125-129 | A model whose directory exists is not fetched, whether or not the cache is full; its handle records that directory and is stored under the id |
| Models.FetchOnlyWhenAbsent | src/model_manager.py:108-143 | A fetch happens only for a catalogued id that is neither cached nor on disk |
| Models.SecondLoadIsHit | src/model_manager.py:145-184 | Loading the same id twice in a row: the second call fetches nothing and returns the same handle |
| Models.NonPositiveBoundMissRaises | src/model_manager.py:173-175 | With a bound of zero or less the cache stays empty, and a miss whose download succeeds ends in the `popitem` KeyError with the model left on disk |
| Models.LruTrace | src/model_manager.py:145-184 | With bound 2, the loads A, B, A, C leave the order [B, A] after the third call; the fourth evicts B, leaving [A, C] |
| Models.ModelManager.constructor | src/model_manager.py:20-42 | Starts with an empty cache, the given bound and directory, and the catalog `load_model_catalog` yields |
| Models.ModelManager.DownloadModel | src/model_manager.py:108-143 | Result and new disk state follow `DownloadSpec`; an unknown id raises and changes nothing |
| Models.ModelManager.LoadModel | src/model_manager.py:145-184 | Result and new cache state follow `LoadSpec`, fetches and evictions are logged, and the cache invariant is kept |
| Models.ModelManager.AddToCache | src/model_manager.py:172-182 | Pops the front when full, or raises KeyError when a full cache is empty; then inserts the model at the back |
| Models.ModelDownloader.constructor | src/model_manager.py:189-196 | Builds a manager with bound 2 on the given directory |
| Models.ModelDownloader.DownloadModel | src/model_manager.py:198-221 | Unknown ids raise whether or not model info is given; otherwise the manager's download result and disk state, with `snapshot_download` logged exactly when it was called |
| GpuUtils.RequirementsWellFormed | src/gpu_utils.py:20-25 | The requirements table has unique keys and every minimum is at most its recommended amount, and the 8 / 16 GB fallback is ordered too |
| GpuUtils.Lookup | src/gpu_utils.py:116 | The lookup finds a requirement exactly when the id is a key, and the requirement found is that key's entry |
| GpuUtils.RequirementFor | src/gpu_utils.py:116 | A missing id falls back to 8 / 16 GB; on a well-formed table the requirement is ordered |
| GpuUtils.CategoryOf | src/gpu_utils.py:84-89 | The branch one model takes in the recommendation loop (stated by `CategoryIntervals` and `CategoryMonotone`); `IdsIn` collects the ids of one branch in table order (stated by `IdsInMembership` and `IdsInKeepsTableOrder`) |
| GpuUtils.CategoryIntervals | src/gpu_utils.py:83-89 | Optimal, compatible, low-memory and omitted are the intervals [rec, ∞), [min, rec), [0.8·min, min) and below 0.8·min |
| GpuUtils.CategoryMonotone | src/gpu_utils.py:83-89 | More VRAM never moves a model to a worse category |
| GpuUtils.IdsInMembership | src/gpu_utils.py:83-89 | An id is in a recommendation list exactly when its table entry falls in that category |
| GpuUtils.IdsInKeepsTableOrder | src/gpu_utils.py:83-89 | Each recommendation list is an order-preserving subsequence of the table's keys |
| GpuUtils.CategoriesDisjoint | src/gpu_utils.py:83-89 | With unique keys, no model appears in two recommendation lists |
| GpuUtils.GPUManager.constructor | src/gpu_utils.py:17-25 | Records the CUDA flag and installs the well-formed requirements table |
| GpuUtils.GPUManager.GetModelRecommendations | src/gpu_utils.py:67-92 | The three lists are exactly the table's ids in each category, in table order |
| GpuUtils.GPUManager.OptimizeForVram | src/gpu_utils.py:94-133 | The settings are `SettingsFor` the model's requirement, or for the 8 / 16 GB fallback |
| GpuUtils.SettingsFor | src/gpu_utils.py:105-130 | The settings of `optimize_for_vram` for one requirement (stated by `SettingsBands` and `SettingsMonotone`) |
| GpuUtils.SettingsBands | src/gpu_utils.py:105-130 | Below the minimum every memory saving is on with int8; between minimum and recommended only VAE slicing; above, the defaults. Batch size is 2 exactly from 1.5 times the recommended amount |
| GpuUtils.SettingsMonotone | src/gpu_utils.py:119-130 | More VRAM never switches a saving on and never lowers the batch size |
| GpuUtils.OptimalIffDefaultSettings | src/gpu_utils.py:67-133 | A model is recommended as optimal exactly when its optimised settings keep every default apart from the batch size |
| CloudLauncher.DetectPlatform | cloud_launcher.py:21-34 | The platform named by the environment (stated by `DetectPlatformIsFirstMatch`) |
| CloudLauncher.OptimalSettings | cloud_launcher.py:52-98 | The launch settings for a GPU and the optional modules (stated by `ExactlyOnePreload`, `SettingsThresholds` and the lemmas beside them); `MemoryFlags` is the memory bucket's flags (64-75, stated by `MemoryBucketPreload`) and `FamilyFlags` the GPU family's flag (77-83, stated by `FamilyFlagsAtMostOne` and `TorchPinFollowsFamilyFlag`) |
| CloudLauncher.DetectPlatformIsFirstMatch | cloud_launcher.py:21-34 | The platform is the one named by the first marker variable present, in the order tested, else "generic" |
| CloudLauncher.DetermineOptimalSettings | cloud_launcher.py:52-98 | The settings are `OptimalSettings`: base flags, then the memory bucket, the GPU family and `--compile` |
| CloudLauncher.FamilyFlagsAtMostOne | cloud_launcher.py:77-83 | The GPU family adds at most one flag: `--fp16`, `--teacache 2.0` or `--teacache 1.5` |
| CloudLauncher.NoPreloadOutsideMemoryBucket | cloud_launcher.py:52-98 | The base flags, the family flag and `--compile` contain no `--preload` flag |
| CloudLauncher.MemoryBucketPreload | cloud_launcher.py:64-75 | Each memory bucket adds exactly one preload flag, with budget 2000, 1000, 500 or 0 |
| CloudLauncher.ExactlyOnePreload | cloud_launcher.py:52-98 | The final flags hold exactly one preload flag, the one for the GPU's memory bucket |
| CloudLauncher.SettingsThresholds | cloud_launcher.py:52-98 | 14B model iff at least 12 GB, profile 3 iff at least 24 GB, sage attention iff it imports, the base flags first and `--compile` last iff triton imports |
| CloudLauncher.LowMemoryRtx50DoublesFp16 | cloud_launcher.py:64-83 | Below 8 GB on an RTX 50 card, `--fp16` appears twice: once from the bucket, once from the family |
| CloudLauncher.NoGpuSafeDefaults | cloud_launcher.py:50-75 | Without a GPU the placeholder report selects the 1.3B model, profile 4 and the single flag `--preload 0` |
| CloudLauncher.WanGPCloudLauncher.constructor | cloud_launcher.py:16-50 | The platform is detected from the environment, the GPU info is torch's report or the "Unknown", 0 GB placeholder, and the settings are determined from it |
| CloudLauncher.WanGPCloudLauncher.InstallDependencies | cloud_launcher.py:133-146 | The PyTorch command pins torch 2.7.0 from the cu128 index iff the lower-cased GPU name contains "rtx 50", else 2.6.0 from cu124 |
| CloudLauncher.WanGPCloudLauncher.CreateLaunchScript | cloud_launcher.py:172-180 | The script's command is `python wgp.py`, then model, profile and attention, then the extra flags in order |
| CloudLauncher.WanGPCloudLauncher.Launch | cloud_launcher.py:212-220 | The launch command is the same list: `python wgp.py`, model, profile, attention, extra flags |
| CloudLauncher.TorchPinFollowsFamilyFlag | cloud_launcher.py:78-79 | The family step appends `--fp16`, the branch that selects the CUDA 12.8 build, exactly for "rtx 50" cards |
| PlatformSetup.WithPathDefaults | src/platform_setup.py:45-50 | `os.environ` after the three set-if-absent assignments (stated by `PathDefaultsOnlyFillGaps` and `PathDefaultsIdempotent`) |
| PlatformSetup.PathDefaultsOnlyFillGaps | src/platform_setup.py:45-50 | The three path variables become present; variables already set keep their values; absent ones get the absolute `assets/...` paths |
| PlatformSetup.PathDefaultsIdempotent | src/platform_setup.py:45-50 | Applying the defaults a second time changes nothing |
| PlatformSetup.PlatformSetup.constructor | src/platform_setup.py:22-56 | Records the environment and the package groups, and fills the absent path variables of `os.environ` |
| PlatformSetup.Dispatch | src/platform_setup.py:74-87 | The setup routine chosen for an environment name (stated by `DispatchInverse`) |
| PlatformSetup.DispatchInverse | src/platform_setup.py:74-87 | Each registered routine is reached from exactly its own environment name; every other name goes to the generic routine |
| PlatformSetup.PackageName | src/platform_setup.py:272-279 | The package name of a requirement, or failure when the two-name unpacking of `split('>=')` would raise (stated by `PackageNameIsPrefix` and `BareNameParses`) |
| PlatformSetup.ToInstall | src/platform_setup.py:264-291 | The requirements handed to pip (stated by `ToInstallMembership` and `ToInstallKeepsOrder`); `Flatten` is the combined list of 264-267 (stated by `FlattenGroups`), and `PipInstall` the pip arguments of 289-291 (stated by `InstallRequiredPackages`) |
| Text.StripRemovesSeparators | src/platform_setup.py:279 | Like `str.strip()`, stripping removes the ASCII information separators 0x1C and 0x1F around a name |
| PlatformSetup.PackageNameIsPrefix | src/platform_setup.py:272-279 | A parsed name is the stripped text before the first `>=`, or the whole requirement stripped when there is none |
| PlatformSetup.ToInstallMembership | src/platform_setup.py:270-281 | A requirement goes to pip exactly when it is listed, its name parses, and that name is not an installed key |
| PlatformSetup.ToInstallKeepsOrder | src/platform_setup.py:270-281 | The pip list keeps the requirements' order |
| PlatformSetup.BareNameParses | src/platform_setup.py:278-279 | A requirement without a version constraint and without surrounding spaces is its own package name |
| PlatformSetup.NotLowerCaseReinstalled | src/platform_setup.py:259-281 | With a lower-case package index, a requirement whose name is not lower case always goes to pip |
| PlatformSetup.MixedCaseNamesAlwaysReinstalled | src/platform_setup.py:259-281 | `PyYAML` and `GPUtil` are passed to pip on every run, whatever is installed |
| PlatformSetup.MixedCaseNamesListed | src/platform_setup.py:32-42 | `PyYAML` and `GPUtil` are among the flattened required packages |
| PlatformSetup.FlattenGroups | src/platform_setup.py:265-267 | The combined list is every group's requirements one group after another |
| PlatformSetup.SelectMissing | src/platform_setup.py:270-281 | Raises exactly when some requirement has more than one `>=`; otherwise returns the requirements whose name is not installed, in order |
| PlatformSetup.PlatformSetup.InstallRequiredPackages | src/platform_setup.py:248-298 | Raises exactly when a requirement cannot be parsed; otherwise runs pip on the missing requirements, and only when there are any |
| PlatformSetup.PlatformSetup.Run | src/platform_setup.py:58-106 | Runs the dispatched routine; succeeds exactly when no step raises; pip runs only for a non-empty list; the last progress report is 100 or 0 |
| App.FillMissing | src/app.py:70-79 | The paths after the fill loop (stated by `FillMissingSpec`) over `DefaultPathTable`, the three defaults of 70-74 in order (stated by `SetupPathsResolution`) |
| App.FillMissingSpec | src/app.py:77-79 | The fill loop adds exactly the default keys, keeps every configured path, and gives a missing key its default |
| App.SetupPaths | src/app.py:64-79 | The configuration's paths become the configured paths with the defaults filled in |
| App.SetupPathsResolution | src/app.py:64-79 | The three directories are set: a configured path wins, then the environment variable, then the `./assets` default |
| App.OutputPath | src/app.py:104 | `generated_video_<id>.mp4` joined to the output directory (stated by `OutputPathInjective`) |
| App.OutputPathInjective | src/app.py:104 | Two models never share an output file in the same directory |
| App.CatalogAgreesWithRequirements | src/gpu_utils.py:20-25 | Every built-in catalog model has a GPU requirement entry with the same minimum VRAM |
| App.WanGPApp.constructor | src/app.py:27-62 | Paths are filled in first. The manager is built on the model cache directory with bound 2. Absent performance and GPU-info entries get their defaults |
| App.WanGPApp.GenerateVideo | src/app.py:85-107 | Loads the model exactly as `load_model` does, logging its fetch and eviction and raising what it raises; otherwise returns `generated_video_<id>.mp4` inside the output directory |

## Left out

- Hardware probing is not modelled. `get_detailed_info`, `get_gpu_info`, `torch.cuda.is_available` and the torch device are inputs.
- `snapshot_download` is an input. Its returned path is taken as given. Whether a failed download left the model directory behind is part of the input, not derived from the download's progress.
- YAML parsing of the catalog file is reduced to its outcome: missing, unreadable, or parsed with or without `models`. A catalog entry without `repo_id` would raise `KeyError` in `download_model`; that case is not modelled.
- Models.ModelManager.DownloadModel: the path of an existing model directory is the cache directory and the id joined with one `/`. `str(Path(dir) / id)` also normalises the path, dropping `.` segments and repeated slashes (`./assets/models` gives `assets/models/<id>`), and an absolute id would replace the directory; neither is modelled.
- `Path(...).absolute()` is modelled as joining the current directory and the relative path, without normalisation.
- File-system side effects are not modelled: `mkdir` of the cache, path and data directories, the default `models.yaml` written by `_common_setup_steps`, and writing and `chmod` of `auto_launch.py`.
- `str.lower` is modelled on ASCII letters only. `str.strip` removes exactly the characters `str.isspace` accepts.
- Side effects without a modelled result are left out: `torch.cuda.empty_cache`, logging, `print`, and running subprocesses. Only the commands are modelled.
- The setup routines (`_setup_colab` … `_setup_docker`, `_setup_generic`) and `_common_setup_steps` are left out, including Google Drive mounting. Only which routine runs and whether it raises are modelled.
- PlatformSetup.PlatformSetup.Run: only the last progress report is stated. The intermediate values 5, 60 and 70 are not.
- PlatformSetup.PlatformSetup.InstallRequiredPackages: a failing pip run is caught and logged by the source and does not change the outcome. Its intermediate progress values are not modelled.
- Thread safety is not modelled. The source has no locking.
- Left out: `interface.py`, `generation.py`, the Gradio `launch` of `WanGPApp`, the `main` functions and argument parsing, `print_system_info`, `setup_environment`, the requirements-file install, and the optional-package loop of `install_dependencies`.
- VRAM and memory are exact reals, not floating point.
- App.WanGPApp.constructor: the source's `config or {}` keeps aliasing a caller's non-empty dictionary. The model copies the value, and `None` becomes `App.EmptyConfig`.
- App.WanGPApp.GenerateVideo: the prompt, frame count, frame rate and extra arguments are unused by the source and have no effect in the model.
- Models.ModelManager.LoadModel: the code has no catalog error type, no `release_all` or `contains`, and no locking, and eviction does not release the evicted handle; the model has none of them either.
