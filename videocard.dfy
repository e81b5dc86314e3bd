/**
 * `select_best_gpu`: every graphics card is scored by a weighted sum of
 * its clocks, memory size, memory type, bandwidth and compute throughput,
 * less its power draw and price, and the first card of maximal score is
 * returned. There is no filter.
 */
module VideoCard {
  import opened PyValues
  import opened Text
  import opened Attributes
  import opened Selection

  const DefaultWeights: Weights := map[
    "gpu_clock" := 1.2, "boost_clock" := 1.5, "vram_size" := 1.8, "vram_type" := 1.0,
    "memory_bandwidth" := 1.3, "tflops" := 2.0, "tdp" := -0.7, "price" := -1.0]

  /** The number of scored attributes. */
  const Count: nat := 8

  /** The i-th scored attribute, in the order the loop body scores them. */
  function Key(i: nat): string
    requires i < Count
  {
    match i
    case 0 => "gpu_clock"
    case 1 => "boost_clock"
    case 2 => "vram_size"
    case 3 => "vram_type"
    case 4 => "memory_bandwidth"
    case 5 => "tflops"
    case 6 => "tdp"
    case 7 => "price"
  }

  /** The weight table is indexed with each of these. */
  const ScoredKeys: set<string> := {
    "gpu_clock", "boost_clock", "vram_size", "vram_type", "memory_bandwidth", "tflops", "tdp", "price"}

  /** `weights or default_weights`. */
  function EffectiveWeights(weights: Option<Weights>): Weights
  {
    WeightsOr(weights, DefaultWeights)
  }

  lemma KeysAreScoredKeys()
    ensures forall i, j :: 0 <= i < Count && 0 <= j < Count && i != j ==> Key(i) != Key(j)
    ensures forall i :: 0 <= i < Count ==> Key(i) in ScoredKeys
  {
  }

  /** The memory types with a tier of their own. */
  const VramTable: map<string, real> :=
    map["GDDR6" := 10.0, "GDDR6X" := 12.0, "GDDR5" := 6.0, "HBM2" := 8.0, "HBM3" := 15.0]

  /**
   * `vram_type_scores.get(vram_type, 5)`: an exact-key lookup; an unnamed
   * type scores 5, below every named one; a dict or list raises as unhashable.
   */
  function VramTier(vramType: Value): (r: Result<real>)
    ensures r.Raise? <==> vramType.Rec? || vramType.Lst?
    ensures r.Ok? ==> 5.0 <= r.value <= 15.0
    ensures r.Ok? && r.value == 5.0 <==> r.Ok? && !(vramType.Str? && vramType.s in VramTable)
    ensures vramType == Str("HBM3") ==> r == Ok(15.0)
    ensures vramType == Str("GDDR6X") ==> r == Ok(12.0)
    ensures vramType == Str("GDDR6") ==> r == Ok(10.0)
    ensures vramType == Str("HBM2") ==> r == Ok(8.0)
    ensures vramType == Str("GDDR5") ==> r == Ok(6.0)
  {
    HashedGet(VramTable, vramType, 5.0)
  }

  /** What the i-th scored attribute adds when the card has it with value v, or the exception it raises. */
  function Part(i: nat, v: Value, w: Weights): Result<real>
    requires i < Count && ScoredKeys <= w.Keys
  {
    match i
    case 0 => Scale(UnitFloat(v, "MHz"), w["gpu_clock"])
    case 1 => Scale(UnitFloat(v, "MHz"), w["boost_clock"])
    case 2 => Scale(UnitInt(v, "GB"), w["vram_size"])
    case 3 => Scale(VramTier(v), w["vram_type"])
    case 4 => Scale(UnitFloat(v, "GB/s"), w["memory_bandwidth"])
    case 5 => Scale(UnitFloat(v, "TFLOPS"), w["tflops"])
    case 6 => (var tdp :- UnitInt(v, "W"); Ok(-Weigh(tdp, Abs(w["tdp"]))))
    case 7 => PricePenalty(v, w["price"])
  }

  /** The i-th attribute's contribution: its part when the card has it, nothing otherwise. */
  function Term(g: Record, w: Weights, i: nat): Result<real>
    requires i < Count && ScoredKeys <= w.Keys
  {
    if Key(i) in g then Part(i, g[Key(i)], w) else Ok(0.0)
  }

  /** The running `score` after the loop body has handled the first n scored attributes. */
  function Prefix(g: Record, w: Weights, n: nat): Result<real>
    requires n <= Count && ScoredKeys <= w.Keys
  {
    if n == 0 then Ok(0.0) else Plus(Prefix(g, w, n - 1), Term(g, w, n - 1))
  }

  /** A card's score: the sum of its attributes' contributions, or an exception if one raises. */
  function CardScore(g: Record, w: Weights): Result<real>
    requires ScoredKeys <= w.Keys
  {
    Prefix(g, w, Count)
  }

  /** The score raises exactly when some attribute's contribution does. */
  lemma {:induction false} PrefixRaises(g: Record, w: Weights, n: nat)
    requires n <= Count && ScoredKeys <= w.Keys
    ensures Prefix(g, w, n).Raise? <==> exists i :: 0 <= i < n && Term(g, w, i).Raise?
  {
    if n > 0 {
      PrefixRaises(g, w, n - 1);
    }
  }

  /** Once the running score has raised, it stays raised up to attribute m. */
  lemma RaiseSticksAt(g: Record, w: Weights, m: nat)
    requires m <= Count && ScoredKeys <= w.Keys
    ensures forall n :: 0 <= n <= m && Prefix(g, w, n).Raise? ==> Prefix(g, w, m).Raise?
  {
    PrefixRaises(g, w, m);
    forall n | 0 <= n <= m && Prefix(g, w, n).Raise?
      ensures Prefix(g, w, m).Raise?
    {
      PrefixRaises(g, w, n);
    }
  }

  /** Two cards whose terms agree except the k-th, which the second card lacks. */
  lemma {:induction false} PrefixDelta(g1: Record, g2: Record, w: Weights, k: nat, n: nat)
    requires k < Count && n <= Count && ScoredKeys <= w.Keys
    requires forall i :: 0 <= i < Count && i != k ==> Term(g1, w, i) == Term(g2, w, i)
    requires Term(g2, w, k) == Ok(0.0)
    ensures Prefix(g1, w, n) == Plus(Prefix(g2, w, n), if k < n then Term(g1, w, k) else Ok(0.0))
  {
    if n > 0 {
      PrefixDelta(g1, g2, w, k, n - 1);
    }
  }

  /**
   * Attributes contribute independently: giving the card the k-th scored
   * attribute with value v changes its score by exactly that attribute's part.
   */
  lemma AttributeDelta(g: Record, k: nat, v: Value, w: Weights)
    requires k < Count && ScoredKeys <= w.Keys
    ensures CardScore(g[Key(k) := v], w) == Plus(CardScore(g - {Key(k)}, w), Part(k, v, w))
  {
    KeysAreScoredKeys();
    PrefixDelta(g[Key(k) := v], g - {Key(k)}, w, k, Count);
  }

  lemma {:induction false} PrefixSame(g1: Record, g2: Record, w: Weights, n: nat)
    requires n <= Count && ScoredKeys <= w.Keys
    requires forall i :: 0 <= i < Count ==> Term(g1, w, i) == Term(g2, w, i)
    ensures Prefix(g1, w, n) == Prefix(g2, w, n)
  {
    if n > 0 {
      PrefixSame(g1, g2, w, n - 1);
    }
  }

  /** Attributes that are not scored (`name`, ...) do not change the score. */
  lemma UnscoredAttributeIgnored(g: Record, key: string, v: Value, w: Weights)
    requires ScoredKeys <= w.Keys && key !in ScoredKeys
    ensures CardScore(g[key := v], w) == CardScore(g, w)
  {
    KeysAreScoredKeys();
    assert forall i :: 0 <= i < Count ==> Term(g[key := v], w, i) == Term(g, w, i);
    PrefixSame(g[key := v], g, w, Count);
  }

  /** Two values of the k-th attribute that contribute alike give the card the same score. */
  lemma SamePartSameScore(g: Record, k: nat, v1: Value, v2: Value, w: Weights)
    requires k < Count && ScoredKeys <= w.Keys && Part(k, v1, w) == Part(k, v2, w)
    ensures CardScore(g[Key(k) := v1], w) == CardScore(g[Key(k) := v2], w)
  {
    AttributeDelta(g, k, v1, w);
    AttributeDelta(g, k, v2, w);
  }

  /** The attributes read through a unit suffix: both clocks, memory size, bandwidth, throughput and power draw. */
  predicate HasUnit(k: nat)
  {
    k < Count && k != 3 && k != 7
  }

  /** The unit suffix the loop body strips from the k-th attribute. */
  function Unit(k: nat): (unit: string)
    requires HasUnit(k)
    ensures UnitToken(unit)
  {
    match k
    case 0 => "MHz"
    case 1 => "MHz"
    case 2 => "GB"
    case 4 => "GB/s"
    case 5 => "TFLOPS"
    case 6 => "W"
  }

  /**
   * A unit-suffixed attribute scores as the bare number: `'2235MHz'` as
   * `2235` in either clock, `'24GB'` as `24`, `'1008GB/s'` as `1008`,
   * `'61TFLOPS'` as `61`, `'450W'` as `450`.
   */
  lemma UnitSuffixesAreInvisible(g: Record, k: nat, n: nat, w: Weights)
    requires HasUnit(k) && ScoredKeys <= w.Keys
    ensures CardScore(g[Key(k) := Str(NatText(n) + Unit(k))], w) == CardScore(g[Key(k) := Num(n as real)], w)
  {
    if k == 2 || k == 6 {
      UnitIntOfText(n, Unit(k));
    } else {
      UnitFloatOfText(n, Unit(k));
    }
    assert Part(k, Str(NatText(n) + Unit(k)), w) == Part(k, Num(n as real), w);
    SamePartSameScore(g, k, Str(NatText(n) + Unit(k)), Num(n as real), w);
  }

  /** A decimal throughput with its unit scores as the decimal: `'82.6TFLOPS'` as `82.6`. */
  lemma DecimalTflopsInvisible(g: Record, whole: nat, frac: string, w: Weights)
    requires ScoredKeys <= w.Keys && AllDigits(frac)
    ensures AllDigits(NatText(whole))
    ensures CardScore(g["tflops" := Str(DecimalText(whole, frac) + "TFLOPS")], w)
         == CardScore(g["tflops" := Num(DecimalValue(NatText(whole), frac))], w)
  {
    UnitFloatOfDecimal(whole, frac, "TFLOPS");
    assert Key(5) == "tflops";
    SamePartSameScore(g, 5, Str(DecimalText(whole, frac) + "TFLOPS"), Num(DecimalValue(NatText(whole), frac)), w);
  }

  /** The memory type adds its tier times the weight. */
  lemma VramTypeContribution(g: Record, vramType: string, w: Weights)
    requires ScoredKeys <= w.Keys
    ensures CardScore(g["vram_type" := Str(vramType)], w)
         == Plus(CardScore(g - {"vram_type"}, w), Ok(Weigh(VramTier(Str(vramType)).value, w["vram_type"])))
  {
    assert Key(3) == "vram_type" && Part(3, Str(vramType), w) == Scale(VramTier(Str(vramType)), w["vram_type"]);
    AttributeDelta(g, 3, Str(vramType), w);
  }

  /** The power draw always lowers the score, by `tdp * |w_tdp|`, whatever the sign the weight is stored with. */
  lemma TdpAlwaysSubtracted(g: Record, tdp: real, w: Weights)
    requires ScoredKeys <= w.Keys
    ensures CardScore(g["tdp" := Num(tdp)], w) == Plus(CardScore(g - {"tdp"}, w), Ok(-(tdp * Abs(w["tdp"]))))
  {
    assert Key(6) == "tdp";
    assert Part(6, Num(tdp), w) == Ok(-Weigh(tdp, Abs(w["tdp"])));
    AttributeDelta(g, 6, Num(tdp), w);
  }

  /** A non-positive price leaves the score as it is; a positive one costs `price * |w_price|`. */
  lemma PricePenaltyOnlyWhenPositive(g: Record, p: real, w: Weights)
    requires ScoredKeys <= w.Keys
    ensures p <= 0.0 ==> CardScore(g["price" := Num(p)], w) == CardScore(g - {"price"}, w)
    ensures p > 0.0 ==> CardScore(g["price" := Num(p)], w) == Plus(CardScore(g - {"price"}, w), Ok(-(p * Abs(w["price"]))))
  {
    assert Key(7) == "price" && Part(7, Num(p), w) == PricePenalty(Num(p), w["price"]);
    AttributeDelta(g, 7, Num(p), w);
  }

  /** The loop body for the clocks, the memory size and the memory type. */
  method ScoreClocksAndMemory(g: Record, w: Weights) returns (r: Result<real>)
    requires ScoredKeys <= w.Keys
    ensures r == Prefix(g, w, 4)
  {
    RaiseSticksAt(g, w, 4);
    var score := 0.0;
    assert Prefix(g, w, 1) == Plus(Ok(score), Term(g, w, 0));
    if "gpu_clock" in g {
      var clock :- UnitFloat(g["gpu_clock"], "MHz");
      score := score + Weigh(clock, w["gpu_clock"]);
    }
    assert Prefix(g, w, 2) == Plus(Ok(score), Term(g, w, 1));
    if "boost_clock" in g {
      var boost :- UnitFloat(g["boost_clock"], "MHz");
      score := score + Weigh(boost, w["boost_clock"]);
    }
    assert Prefix(g, w, 3) == Plus(Ok(score), Term(g, w, 2));
    if "vram_size" in g {
      var vram :- UnitInt(g["vram_size"], "GB");
      score := score + Weigh(vram, w["vram_size"]);
    }
    assert Prefix(g, w, 4) == Plus(Ok(score), Term(g, w, 3));
    if "vram_type" in g {
      var tier :- VramTier(g["vram_type"]);
      score := score + Weigh(tier, w["vram_type"]);
    }
    return Ok(score);
  }

  /** The loop body for bandwidth, throughput, power draw and price. */
  method ScoreThroughputAndCost(g: Record, w: Weights, score0: real) returns (r: Result<real>)
    requires ScoredKeys <= w.Keys && Prefix(g, w, 4) == Ok(score0)
    ensures r == CardScore(g, w)
  {
    RaiseSticksAt(g, w, Count);
    var score := score0;
    assert Prefix(g, w, 5) == Plus(Ok(score), Term(g, w, 4));
    if "memory_bandwidth" in g {
      var bandwidth :- UnitFloat(g["memory_bandwidth"], "GB/s");
      score := score + Weigh(bandwidth, w["memory_bandwidth"]);
    }
    assert Prefix(g, w, 6) == Plus(Ok(score), Term(g, w, 5));
    if "tflops" in g {
      var tflops :- UnitFloat(g["tflops"], "TFLOPS");
      score := score + Weigh(tflops, w["tflops"]);
    }
    assert Prefix(g, w, 7) == Plus(Ok(score), Term(g, w, 6));
    if "tdp" in g {
      var tdp :- UnitInt(g["tdp"], "W");
      score := score - Weigh(tdp, Abs(w["tdp"]));
    }
    assert Prefix(g, w, 8) == Plus(Ok(score), Term(g, w, 7));
    if "price" in g {
      var price :- Arith(g["price"]);
      if price > 0.0 {
        score := score - Weigh(price, Abs(w["price"]));
      }
    }
    return Ok(score);
  }

  /** One card's score, accumulated attribute by attribute as the loop body does. */
  method ScoreCard(g: Record, w: Weights) returns (r: Result<real>)
    requires ScoredKeys <= w.Keys
    ensures r == CardScore(g, w)
  {
    RaiseSticksAt(g, w, Count);
    var score := ScoreClocksAndMemory(g, w);
    if score.Raise? {
      return Raise;
    }
    r := ScoreThroughputAndCost(g, w, score.value);
  }

  function CardVerdict(g: Record, w: Weights): Verdict
    requires ScoredKeys <= w.Keys
  {
    match CardScore(g, w)
    case Ok(s) => Scored(s)
    case Raise => Crash
  }

  function Verdicts(gpus: seq<Record>, w: Weights): (vs: seq<Verdict>)
    requires ScoredKeys <= w.Keys
    ensures |vs| == |gpus|
  {
    seq(|gpus|, i requires 0 <= i < |gpus| => CardVerdict(gpus[i], w))
  }

  /**
   * `select_best_gpu(gpus_list, weights)`: the first card of maximal
   * score. With no filter, a non-empty list whose cards all score always
   * has a winner.
   */
  method SelectBestGpu(gpus: seq<Record>, weights: Option<Weights>) returns (r: Outcome<Record>)
    requires ScoredKeys <= EffectiveWeights(weights).Keys
    ensures IsBestOf(gpus, Verdicts(gpus, EffectiveWeights(weights)), r)
    ensures |gpus| == 0 ==> r == Returned(None, Fin(0.0))
    ensures |gpus| > 0 && (forall i :: 0 <= i < |gpus| ==> CardScore(gpus[i], EffectiveWeights(weights)).Ok?) ==>
              r.Returned? && r.best.Some?
    ensures r.Returned? && r.best.Some? ==>
              CardScore(r.best.value.item, EffectiveWeights(weights)) == Ok(r.score.value)
  {
    if |gpus| == 0 {
      return Returned(None, Fin(0.0));
    }
    var w := EffectiveWeights(weights);
    ghost var vs := Verdicts(gpus, w);
    var best: Option<Pick<Record>> := None;
    var bestScore := NegInf;
    for i := 0 to |gpus|
      invariant Running(gpus, vs, i, best, bestScore)
      invariant i > 0 ==> best.Some?
    {
      var gpu := gpus[i];
      var score := ScoreCard(gpu, w);
      if score.Raise? {
        assert vs[i].Crash?;
        return Raised;
      }
      RunningStep(gpus, vs, i, best, bestScore);
      if Beats(score.value, bestScore) {
        bestScore := Fin(score.value);
        best := Some(Pick(i, gpu));
      }
    }
    return Returned(best, bestScore);
  }
}
