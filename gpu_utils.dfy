/**
 * The VRAM rules of `GPUManager` in src/gpu_utils.py: the per-model requirements table, the
 * recommendation of models by available VRAM, and the settings chosen for one model.
 * VRAM is an exact `real` number of gigabytes.
 */
module GpuUtils {
  import opened Wrappers
  import opened Seqs

  /** `min_vram_gb` and `recommended_vram_gb` of one model. */
  datatype Requirement = Requirement(minVramGb: int, recommendedVramGb: int)

  /** `model_requirements`, in the dictionary's key order. */
  const ModelRequirements: seq<(string, Requirement)> := [
    ("wan21_t2v_1.3b", Requirement(6, 8)),
    ("wan21_t2v_3.5b", Requirement(8, 12)),
    ("wan21_t2v_14b", Requirement(10, 16)),
    ("hunyuanvideo", Requirement(16, 24))
  ]

  /** Requirement used by `optimize_for_vram` for a model missing from the table. */
  const FallbackRequirement := Requirement(8, 16)

  function Keys(table: seq<(string, Requirement)>): (ks: seq<string>)
    ensures |ks| == |table| && forall i :: 0 <= i < |table| ==> ks[i] == table[i].0
  {
    seq(|table|, i requires 0 <= i < |table| => table[i].0)
  }

  predicate Ordered(req: Requirement)
  {
    0 <= req.minVramGb <= req.recommendedVramGb
  }

  /** A requirements table as a dictionary holds it: unique keys, and ordered requirements. */
  ghost predicate WellFormed(table: seq<(string, Requirement)>)
  {
    Distinct(Keys(table)) && forall i :: 0 <= i < |table| ==> Ordered(table[i].1)
  }

  /** Dictionary keys are unique and every entry asks for at least its minimum as the recommended amount. */
  lemma RequirementsWellFormed()
    ensures WellFormed(ModelRequirements)
    ensures Ordered(FallbackRequirement)
  {
  }

  /** `self.model_requirements.get(model_id, default)` on the table. */
  function Lookup(table: seq<(string, Requirement)>, id: string): (r: Option<Requirement>)
    ensures r.Some? <==> id in Keys(table)
    ensures r.Some? ==> exists i :: 0 <= i < |table| && table[i] == (id, r.value)
  {
    if table == [] then None
    else if table[0].0 == id then Some(table[0].1)
    else
      assert Keys(table) == [table[0].0] + Keys(table[1..]);
      var r := Lookup(table[1..], id);
      assert r.Some? ==> exists i :: 0 <= i < |table[1..]| && table[1..][i] == (id, r.value);
      r
  }

  /** The requirement `optimize_for_vram` works with: the table's entry, else 8 / 16 GB. */
  function RequirementFor(table: seq<(string, Requirement)>, id: string): (req: Requirement)
    ensures id !in Keys(table) ==> req == Requirement(8, 16)
    ensures WellFormed(table) ==> Ordered(req)
  {
    match Lookup(table, id)
    case Some(r) => r
    case None => FallbackRequirement
  }

  datatype Category = Optimal | Compatible | LowMemory | Omitted

  /** The branch of the recommendation loop body that one model takes. */
  function CategoryOf(vram: real, req: Requirement): Category
  {
    if vram >= req.recommendedVramGb as real then Optimal
    else if vram >= req.minVramGb as real then Compatible
    else if vram >= req.minVramGb as real * 0.8 then LowMemory
    else Omitted
  }

  /** Better categories rank higher. */
  function Rank(c: Category): nat
  {
    match c
    case Optimal => 3
    case Compatible => 2
    case LowMemory => 1
    case Omitted => 0
  }

  /** On an ordered requirement each category is exactly one VRAM interval. */
  lemma CategoryIntervals(vram: real, req: Requirement)
    requires Ordered(req)
    ensures var c := CategoryOf(vram, req);
      var lo, hi := req.minVramGb as real, req.recommendedVramGb as real;
      && (c == Optimal <==> vram >= hi)
      && (c == Compatible <==> lo <= vram < hi)
      && (c == LowMemory <==> 0.8 * lo <= vram < lo)
      && (c == Omitted <==> vram < 0.8 * lo)
  {
  }

  /** More VRAM never moves a model to a worse category. */
  lemma CategoryMonotone(v1: real, v2: real, req: Requirement)
    requires Ordered(req) && v1 <= v2
    ensures Rank(CategoryOf(v1, req)) <= Rank(CategoryOf(v2, req))
  {
  }

  /** The ids of the table, in table order, whose category at `vram` is `c`. */
  function IdsIn(table: seq<(string, Requirement)>, vram: real, c: Category): seq<string>
  {
    if table == [] then []
    else (if CategoryOf(vram, table[0].1) == c then [table[0].0] else []) + IdsIn(table[1..], vram, c)
  }

  /** One step of the recommendation loop, for one category. */
  lemma IdsInStep(table: seq<(string, Requirement)>, i: nat, vram: real, c: Category, acc: seq<string>)
    requires i < |table|
    requires IdsIn(table, vram, c) == acc + IdsIn(table[i..], vram, c)
    ensures IdsIn(table, vram, c) ==
      (if CategoryOf(vram, table[i].1) == c then acc + [table[i].0] else acc) + IdsIn(table[i + 1..], vram, c)
  {
    var tail := table[i..];
    assert tail[0] == table[i] && tail[1..] == table[i + 1..];
    var rest := IdsIn(table[i + 1..], vram, c);
    if CategoryOf(vram, table[i].1) == c {
      assert IdsIn(tail, vram, c) == [table[i].0] + rest;
      assert acc + ([table[i].0] + rest) == (acc + [table[i].0]) + rest;
    } else {
      assert IdsIn(tail, vram, c) == rest;
    }
  }

  lemma {:induction false} IdsInMembership(table: seq<(string, Requirement)>, vram: real, c: Category, id: string)
    ensures id in IdsIn(table, vram, c) <==>
      exists i :: 0 <= i < |table| && table[i].0 == id && CategoryOf(vram, table[i].1) == c
  {
    if table != [] {
      IdsInMembership(table[1..], vram, c, id);
      if id in IdsIn(table[1..], vram, c) {
        var i :| 0 <= i < |table[1..]| && table[1..][i].0 == id && CategoryOf(vram, table[1..][i].1) == c;
        assert table[i + 1] == table[1..][i];
      }
      if exists i :: 0 <= i < |table| && table[i].0 == id && CategoryOf(vram, table[i].1) == c {
        var i :| 0 <= i < |table| && table[i].0 == id && CategoryOf(vram, table[i].1) == c;
        if i > 0 {
          assert table[1..][i - 1] == table[i];
        }
      }
    }
  }

  /** Each recommendation list keeps the table's key order. */
  lemma {:induction false} IdsInKeepsTableOrder(table: seq<(string, Requirement)>, vram: real, c: Category)
    ensures Subsequence(IdsIn(table, vram, c), Keys(table))
  {
    if table != [] {
      IdsInKeepsTableOrder(table[1..], vram, c);
      var rest := IdsIn(table[1..], vram, c);
      assert Keys(table) == [table[0].0] + Keys(table[1..]);
      assert Keys(table)[1..] == Keys(table[1..]);
      if CategoryOf(vram, table[0].1) == c {
        assert IdsIn(table, vram, c) == [table[0].0] + rest;
        assert IdsIn(table, vram, c)[1..] == rest;
      } else {
        assert IdsIn(table, vram, c) == rest;
        SubsequenceOfTail(rest, Keys(table[1..]), table[0].0);
      }
    }
  }

  /** With unique keys, no model lands in two categories. */
  lemma CategoriesDisjoint(table: seq<(string, Requirement)>, vram: real, c1: Category, c2: Category, id: string)
    requires Distinct(Keys(table)) && c1 != c2
    ensures id in IdsIn(table, vram, c1) ==> id !in IdsIn(table, vram, c2)
  {
    IdsInMembership(table, vram, c1, id);
    IdsInMembership(table, vram, c2, id);
    if id in IdsIn(table, vram, c1) {
      var i :| 0 <= i < |table| && table[i].0 == id && CategoryOf(vram, table[i].1) == c1;
      forall j | 0 <= j < |table| && table[j].0 == id
        ensures CategoryOf(vram, table[j].1) != c2
      {
        assert Keys(table)[i] == Keys(table)[j];
      }
    }
  }

  datatype Recommendations = Recommendations(optimal: seq<string>, compatible: seq<string>, lowMemory: seq<string>)

  /** The settings dictionary `optimize_for_vram` returns. */
  datatype VramSettings = VramSettings(
    precision: string, enableXformers: bool, cpuOffload: bool, vaeSlicing: bool,
    enableVaeTiling: bool, sequentialOffload: bool, recommendedBatchSize: int)

  const DefaultVramSettings := VramSettings("fp16", true, false, false, false, false, 1)

  /**
   * The settings for a requirement, field by field: every memory saving is on below the minimum,
   * VAE slicing below the recommended amount, and batch size 2 from one and a half times it.
   */
  function SettingsFor(vram: real, req: Requirement): VramSettings
  {
    var short := vram < req.minVramGb as real;
    VramSettings(
      precision := if short then "int8" else "fp16",
      enableXformers := true,
      cpuOffload := short,
      vaeSlicing := vram < req.recommendedVramGb as real,
      enableVaeTiling := short,
      sequentialOffload := short,
      recommendedBatchSize := if vram >= req.recommendedVramGb as real * 1.5 then 2 else 1)
  }

  /** `GPUManager`: the CUDA flag and the requirements table, both fixed at construction. */
  class GPUManager {
    const cudaAvailable: bool
    const modelRequirements: seq<(string, Requirement)>

    ghost predicate Valid()
    {
      WellFormed(modelRequirements)
    }

    constructor (cudaAvailable: bool)
      ensures Valid()
      ensures this.cudaAvailable == cudaAvailable && modelRequirements == ModelRequirements
    {
      this.cudaAvailable := cudaAvailable;
      modelRequirements := ModelRequirements;
      RequirementsWellFormed();
    }

    /** `get_model_recommendations`: one pass over the table, appending each id to at most one list. */
    method GetModelRecommendations(availableVramGb: real) returns (rec: Recommendations)
      ensures rec.optimal == IdsIn(modelRequirements, availableVramGb, Optimal)
      ensures rec.compatible == IdsIn(modelRequirements, availableVramGb, Compatible)
      ensures rec.lowMemory == IdsIn(modelRequirements, availableVramGb, LowMemory)
    {
      var table := modelRequirements;
      rec := Recommendations([], [], []);
      var i := 0;
      while i < |table|
        invariant 0 <= i <= |table|
        invariant IdsIn(table, availableVramGb, Optimal) == rec.optimal + IdsIn(table[i..], availableVramGb, Optimal)
        invariant IdsIn(table, availableVramGb, Compatible) == rec.compatible + IdsIn(table[i..], availableVramGb, Compatible)
        invariant IdsIn(table, availableVramGb, LowMemory) == rec.lowMemory + IdsIn(table[i..], availableVramGb, LowMemory)
      {
        var (modelId, req) := table[i];
        IdsInStep(table, i, availableVramGb, Optimal, rec.optimal);
        IdsInStep(table, i, availableVramGb, Compatible, rec.compatible);
        IdsInStep(table, i, availableVramGb, LowMemory, rec.lowMemory);
        if availableVramGb >= req.recommendedVramGb as real {
          rec := rec.(optimal := rec.optimal + [modelId]);
        } else if availableVramGb >= req.minVramGb as real {
          rec := rec.(compatible := rec.compatible + [modelId]);
        } else if availableVramGb >= req.minVramGb as real * 0.8 {
          rec := rec.(lowMemory := rec.lowMemory + [modelId]);
        }
        i := i + 1;
      }
    }

    /** `optimize_for_vram`: start from the defaults and switch savings on band by band. */
    method OptimizeForVram(availableVramGb: real, modelId: string) returns (settings: VramSettings)
      requires Valid()
      ensures settings == SettingsFor(availableVramGb, RequirementFor(modelRequirements, modelId))
    {
      settings := DefaultVramSettings;
      var req := match Lookup(modelRequirements, modelId) case Some(r) => r case None => FallbackRequirement;
      assert Ordered(req);
      if availableVramGb < req.minVramGb as real {
        settings := settings.(precision := "int8");
        settings := settings.(cpuOffload := true);
        settings := settings.(vaeSlicing := true);
        settings := settings.(enableVaeTiling := true);
        settings := settings.(sequentialOffload := true);
      } else if availableVramGb < req.recommendedVramGb as real {
        settings := settings.(vaeSlicing := true);
      }
      if availableVramGb >= req.recommendedVramGb as real * 1.5 {
        settings := settings.(recommendedBatchSize := 2);
      }
    }
  }

  /** The three bands: below the minimum, between minimum and recommended, at or above recommended. */
  lemma SettingsBands(vram: real, req: Requirement)
    requires Ordered(req)
    ensures var s := SettingsFor(vram, req);
      var lo, hi := req.minVramGb as real, req.recommendedVramGb as real;
      && (vram < lo ==> s.(recommendedBatchSize := 1) == VramSettings("int8", true, true, true, true, true, 1))
      && (lo <= vram < hi ==> s.(recommendedBatchSize := 1) == DefaultVramSettings.(vaeSlicing := true))
      && (hi <= vram ==> s.(recommendedBatchSize := 1) == DefaultVramSettings)
      && (s.recommendedBatchSize == 2 <==> vram >= 1.5 * hi)
      && (s.recommendedBatchSize == 1 <==> vram < 1.5 * hi)
  {
  }

  /** More VRAM never switches a saving on and never lowers the batch size. */
  lemma SettingsMonotone(v1: real, v2: real, req: Requirement)
    requires Ordered(req) && v1 <= v2
    ensures var s1, s2 := SettingsFor(v1, req), SettingsFor(v2, req);
      && (s2.cpuOffload ==> s1.cpuOffload) && (s2.vaeSlicing ==> s1.vaeSlicing)
      && (s2.enableVaeTiling ==> s1.enableVaeTiling) && (s2.sequentialOffload ==> s1.sequentialOffload)
      && (s2.precision == "int8" ==> s1.precision == "int8")
      && s1.recommendedBatchSize <= s2.recommendedBatchSize
  {
  }

  /** A model is recommended as optimal exactly when its settings keep every default except the batch size. */
  lemma OptimalIffDefaultSettings(table: seq<(string, Requirement)>, vram: real, id: string)
    requires WellFormed(table) && id in Keys(table)
    ensures id in IdsIn(table, vram, Optimal) <==>
      SettingsFor(vram, RequirementFor(table, id)).(recommendedBatchSize := 1) == DefaultVramSettings
  {
    IdsInMembership(table, vram, Optimal, id);
    var i :| 0 <= i < |table| && table[i] == (id, RequirementFor(table, id));
    if id in IdsIn(table, vram, Optimal) {
      var j :| 0 <= j < |table| && table[j].0 == id && CategoryOf(vram, table[j].1) == Optimal;
      assert Keys(table)[i] == Keys(table)[j];
    }
  }
}
