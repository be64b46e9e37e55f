/** The static renderer's deterministic part: a seed's parameter vector, the
    integer that seeds the random generator, and the curves drawn from the
    parameters; plus the personality label rules. Pixels are not modelled. */
module FragmentGenerator {
  import opened Common
  import opened Hex
  import opened PyStr

  /** `hash_to_params` keeps at most this many parameters. */
  const NumParams := 10
  /** Hex digits per parameter, and the divisor that normalises them. */
  const ChunkWidth := 8
  const ChunkScale := 0xffff_ffff
  /** At most this many curves are drawn. */
  const MaxCurves := 5
  /** The alpha of every curve's colour. */
  const CurveAlpha := 0.7

  /** Parameter `k` of a seed: `int(seed[8k:8k+8], 16) / 0xffffffff`. */
  function StaticParam(seed: string, k: nat): real
  {
    Param(seed, ChunkWidth, ChunkScale, k)
  }

  /** `hash_to_params`: every chunk is parsed (a non-hexadecimal one raises
      ValueError, even past the tenth), then the first ten values are kept. */
  method HashToParams(seed: string) returns (r: Result<seq<real>>)
    ensures r.Ok? <==> IsHex(seed)
    ensures r.Err? ==> r.error == ValueError
    ensures r.Ok? ==> |r.value| == Min(NumParams, NumChunks(|seed|, ChunkWidth))
    ensures r.Ok? ==> forall k :: 0 <= k < |r.value| ==>
      r.value[k] == StaticParam(seed, k) && 0.0 <= r.value[k] <= 1.0
  {
    var all := ParseChunks(seed, ChunkWidth, ChunkScale);
    if all.Err? {
      return Err(all.error);
    }
    var params := all.value[..Min(NumParams, |all.value|)];
    Pow16Widths();
    forall k | 0 <= k < |params| ensures 0.0 <= params[k] <= 1.0 {
      ParamInUnit(seed, ChunkWidth, ChunkScale, k);
    }
    return Ok(params);
  }

  /** A 64-digit digest always yields exactly eight parameters. */
  lemma DigestHasEightParams(d: HexDigest)
    ensures IsHex(d) && Min(NumParams, NumChunks(|d|, ChunkWidth)) == 8
  {
    DigestChunking(d);
  }

  /** A seed of `n` characters yields fewer than ten parameters exactly when
      `n < 73`, i.e. when it is shorter than ten full chunks. */
  lemma ShortSeedShortVector(n: nat)
    ensures Min(NumParams, NumChunks(n, ChunkWidth)) < NumParams <==> n <= 72
  {
    ChunkIndexBound(n, ChunkWidth, 9);
  }

  datatype Rgba = Rgba(r: real, g: real, b: real, alpha: real)

  /** One polar curve: rotated by its parameter, drawn `lineWidth` thick. */
  datatype Curve = Curve(param: real, lineWidth: real, color: Rgba)

  /** What `generate_fragment` produces apart from the pixels. */
  datatype StaticFragment = StaticFragment(filename: string, hash: string, rngSeed: nat, curves: seq<Curve>)

  /** `{user_id}_{seed[:12]}.png` */
  function StaticName(userId: string, seed: string): string
  {
    userId + "_" + Prefix(seed, 12) + ".png"
  }

  /** The saved image's path, under `fragments/`. */
  function StaticPath(userId: string, seed: string): string
  {
    "fragments/" + StaticName(userId, seed)
  }

  /** `generate_fragment` without the drawing. The parameters are computed
      first; then `int(seed[:8], 16)` raises ValueError on an empty seed; then
      the first curve reads the colour slots `params[5..7]`, which raises
      IndexError when fewer than eight parameters exist. So the call succeeds
      exactly for hexadecimal seeds of at least 57 characters, and then draws
      five curves. */
  method GenerateFragment(seed: string, userId: string) returns (r: Result<StaticFragment>)
    ensures r.Ok? <==> IsHex(seed) && |seed| > 7 * ChunkWidth
    ensures r.Err? ==> r.error == if IsHex(seed) && seed != [] then IndexError else ValueError
    ensures r.Ok? ==> r.value.hash == seed && r.value.filename == StaticPath(userId, seed)
    ensures r.Ok? ==> r.value.rngSeed == HexValue(Prefix(seed, 8)) && r.value.rngSeed < 0x1_0000_0000
    ensures r.Ok? ==> |r.value.curves| == MaxCurves
    ensures r.Ok? ==> forall i :: 0 <= i < MaxCurves ==>
      var c := r.value.curves[i];
      && c.param == StaticParam(seed, i)
      && c.lineWidth == 0.5 + StaticParam(seed, i)
      && 0.5 <= c.lineWidth <= 1.5
      && c.color == Rgba(StaticParam(seed, 5), StaticParam(seed, 6), StaticParam(seed, 7), CurveAlpha)
  {
    var pr := HashToParams(seed);
    if pr.Err? {
      return Err(pr.error);
    }
    var params := pr.value;
    var head := Prefix(seed, 8);
    if head == [] {
      return Err(ValueError);
    }
    var rngSeed := HexValue(head);
    Pow16Widths();
    ChunkIndexBound(|seed|, ChunkWidth, 7);
    var n := Min(MaxCurves, |params|);
    var curves: seq<Curve> := [];
    var i := 0;
    while i < n
      invariant 0 <= i <= n
      invariant i > 0 ==> |params| >= 8
      invariant |curves| == i
      invariant forall j :: 0 <= j < i ==>
        curves[j] == Curve(params[j], 0.5 + params[j], Rgba(params[5], params[6], params[7], CurveAlpha))
    {
      if |params| < 8 {
        return Err(IndexError);
      }
      var color := Rgba(params[5], params[6], params[7], CurveAlpha);
      curves := curves + [Curve(params[i], 0.5 + params[i], color)];
      i := i + 1;
    }
    return Ok(StaticFragment(StaticPath(userId, seed), seed, rngSeed, curves));
  }

  // ---------------------------------------------------------------- personality

  /** The five continuous traits. */
  datatype Personality = Personality(chaos: real, calm: real, complexity: real, age: real, energy: real)

  /** The descriptive labels; each belongs to one of four categories, and the
      labels are listed in category order. */
  datatype Trait = Chaotic | Serene | Intricate | Minimal | Ancient | Newborn | Energetic | Dormant
  {
    function Name(): string
    {
      match this
      case Chaotic => "chaotic"
      case Serene => "serene"
      case Intricate => "intricate"
      case Minimal => "minimal"
      case Ancient => "ancient"
      case Newborn => "newborn"
      case Energetic => "energetic"
      case Dormant => "dormant"
    }

    /** 0: chaos or calm, 1: complexity, 2: age, 3: energy. */
    function Category(): nat
    {
      match this
      case Chaotic | Serene => 0
      case Intricate | Minimal => 1
      case Ancient | Newborn => 2
      case Energetic | Dormant => 3
    }
  }

  /** Distinct labels have distinct names, so a list of names identifies the labels. */
  lemma NamesDistinct(a: Trait, b: Trait)
    requires a.Name() == b.Name()
    ensures a == b
  {
  }

  function Names(ts: seq<Trait>): (r: seq<string>)
    ensures |r| == |ts| && forall i :: 0 <= i < |ts| ==> r[i] == ts[i].Name()
  {
    seq(|ts|, i requires 0 <= i < |ts| => ts[i].Name())
  }

  /** Labels listed in strictly increasing category order. */
  predicate InCategoryOrder(r: seq<Trait>)
  {
    forall i, j :: 0 <= i < j < |r| ==> r[i].Category() < r[j].Category()
  }

  /** At most one label, from category `c`. */
  predicate OneOf(r: seq<Trait>, c: nat)
  {
    |r| <= 1 && forall i :: 0 <= i < |r| ==> r[i].Category() == c
  }

  lemma {:induction false} InCategoryOrderAppend(a: seq<Trait>, b: seq<Trait>, c: nat)
    requires InCategoryOrder(a) && forall i :: 0 <= i < |a| ==> a[i].Category() < c
    requires OneOf(b, c)
    ensures InCategoryOrder(a + b)
    ensures forall i :: 0 <= i < |a + b| ==> (a + b)[i].Category() <= c
  {
  }

  function ChaosLabel(p: Personality): (r: seq<Trait>)
    ensures OneOf(r, 0)
    ensures Chaotic in r <==> p.chaos > 0.7
    ensures Serene in r <==> !(p.chaos > 0.7) && p.calm > 0.7
    ensures forall t :: t in r ==> t == Chaotic || t == Serene
  {
    if p.chaos > 0.7 then [Chaotic] else if p.calm > 0.7 then [Serene] else []
  }

  function ComplexityLabel(p: Personality): (r: seq<Trait>)
    ensures OneOf(r, 1) && |r| == 1
    ensures r == [Intricate] <==> p.complexity > 0.5
    ensures r == [Minimal] <==> !(p.complexity > 0.5)
  {
    if p.complexity > 0.5 then [Intricate] else [Minimal]
  }

  function AgeLabel(p: Personality): (r: seq<Trait>)
    ensures OneOf(r, 2)
    ensures Ancient in r <==> p.age > 7.0
    ensures Newborn in r <==> p.age < 1.0
    ensures forall t :: t in r ==> t == Ancient || t == Newborn
  {
    if p.age > 7.0 then [Ancient] else if p.age < 1.0 then [Newborn] else []
  }

  function EnergyLabel(p: Personality): (r: seq<Trait>)
    ensures OneOf(r, 3)
    ensures Energetic in r <==> p.energy > 0.7
    ensures Dormant in r <==> p.energy < 0.3
    ensures forall t :: t in r ==> t == Energetic || t == Dormant
  {
    if p.energy > 0.7 then [Energetic] else if p.energy < 0.3 then [Dormant] else []
  }

  /** The label list, category by category: one to four labels, no two from
      the same category, in category order. */
  function Labels(p: Personality): (r: seq<Trait>)
    ensures 1 <= |r| <= 4
    ensures InCategoryOrder(r)
  {
    var c0, c1, c2, c3 := ChaosLabel(p), ComplexityLabel(p), AgeLabel(p), EnergyLabel(p);
    InCategoryOrderAppend(c0, c1, 1);
    InCategoryOrderAppend(c0 + c1, c2, 2);
    InCategoryOrderAppend(c0 + c1 + c2, c3, 3);
    c0 + c1 + c2 + c3
  }

  /** Each label is present exactly when its threshold rule fires (a rule
      guarded by `elif` only when the rule before it did not). */
  lemma LabelRules(p: Personality)
    ensures var r := Labels(p);
      && (Chaotic in r <==> p.chaos > 0.7)
      && (Serene in r <==> !(p.chaos > 0.7) && p.calm > 0.7)
      && (Intricate in r <==> p.complexity > 0.5)
      && (Minimal in r <==> !(p.complexity > 0.5))
      && (Ancient in r <==> p.age > 7.0)
      && (Newborn in r <==> p.age < 1.0)
      && (Energetic in r <==> p.energy > 0.7)
      && (Dormant in r <==> p.energy < 0.3)
  {
    var c0, c1, c2, c3 := ChaosLabel(p), ComplexityLabel(p), AgeLabel(p), EnergyLabel(p);
    var r := Labels(p);
    assert r == c0 + c1 + c2 + c3;
    forall t ensures t in r <==> t in c0 || t in c1 || t in c2 || t in c3 {
    }
  }

  /** Exactly one of intricate and minimal is present, and the opposites
      chaotic and serene, ancient and newborn, energetic and dormant never
      meet. */
  lemma LabelExclusive(p: Personality)
    ensures var r := Labels(p);
      && (Intricate in r) != (Minimal in r)
      && !(Chaotic in r && Serene in r)
      && !(Ancient in r && Newborn in r)
      && !(Energetic in r && Dormant in r)
  {
    LabelRules(p);
  }

  lemma NamesConcat(a: seq<Trait>, b: seq<Trait>)
    ensures Names(a + b) == Names(a) + Names(b)
  {
  }

  /** The names of the labels, category by category. */
  lemma LabelNames(p: Personality)
    ensures Names(Labels(p))
      == Names(ChaosLabel(p)) + Names(ComplexityLabel(p)) + Names(AgeLabel(p)) + Names(EnergyLabel(p))
  {
    NamesConcat(ChaosLabel(p), ComplexityLabel(p));
    NamesConcat(ChaosLabel(p) + ComplexityLabel(p), AgeLabel(p));
    NamesConcat(ChaosLabel(p) + ComplexityLabel(p) + AgeLabel(p), EnergyLabel(p));
  }

  /** The label names as the threshold rules spell them out, one category
      after another. */
  lemma LabelNamesByRule(p: Personality)
    ensures Names(Labels(p))
      == (if p.chaos > 0.7 then ["chaotic"] else if p.calm > 0.7 then ["serene"] else [])
      + (if p.complexity > 0.5 then ["intricate"] else ["minimal"])
      + (if p.age > 7.0 then ["ancient"] else if p.age < 1.0 then ["newborn"] else [])
      + (if p.energy > 0.7 then ["energetic"] else if p.energy < 0.3 then ["dormant"] else [])
  {
    LabelNames(p);
    assert Names(ChaosLabel(p)) == if p.chaos > 0.7 then ["chaotic"] else if p.calm > 0.7 then ["serene"] else [];
    assert Names(ComplexityLabel(p)) == if p.complexity > 0.5 then ["intricate"] else ["minimal"];
    assert Names(AgeLabel(p)) == if p.age > 7.0 then ["ancient"] else if p.age < 1.0 then ["newborn"] else [];
    assert Names(EnergyLabel(p)) == if p.energy > 0.7 then ["energetic"] else if p.energy < 0.3 then ["dormant"] else [];
  }

  /** `describe_personality`: builds the list by conditional appends. */
  method DescribePersonality(p: Personality) returns (traits: seq<string>)
    ensures traits == Names(Labels(p))
  {
    traits := [];
    if p.chaos > 0.7 {
      traits := traits + ["chaotic"];
    } else if p.calm > 0.7 {
      traits := traits + ["serene"];
    }
    assert traits == if p.chaos > 0.7 then ["chaotic"] else if p.calm > 0.7 then ["serene"] else [];
    ghost var before := traits;
    if p.complexity > 0.5 {
      traits := traits + ["intricate"];
    } else {
      traits := traits + ["minimal"];
    }
    assert traits == before + if p.complexity > 0.5 then ["intricate"] else ["minimal"];
    before := traits;
    if p.age > 7.0 {
      traits := traits + ["ancient"];
    } else if p.age < 1.0 {
      traits := traits + ["newborn"];
    }
    assert traits == before + if p.age > 7.0 then ["ancient"] else if p.age < 1.0 then ["newborn"] else [];
    before := traits;
    if p.energy > 0.7 {
      traits := traits + ["energetic"];
    } else if p.energy < 0.3 {
      traits := traits + ["dormant"];
    }
    assert traits == before + if p.energy > 0.7 then ["energetic"] else if p.energy < 0.3 then ["dormant"] else [];
    LabelNamesByRule(p);
  }
}
