/**
 * `select_best_cpu`: every processor is scored by walking the weight
 * table and adding `value * weight` for each weighted attribute the
 * record has (frequencies converted from GHz to MHz), then subtracting
 * the price once more; the first processor of maximal score is returned.
 * There is no filter, and no weight is required to be present.
 */
module Processor {
  import opened PyValues
  import opened Text
  import opened Attributes
  import opened Selection
  import opened Sums

  const DefaultWeights: Weights := map[
    "cores" := 1.5, "threads" := 1.2, "frequency" := 1.3, "turbo_frequency" := 1.1,
    "cache" := 1.0, "tdp" := -0.5, "price" := -0.7]

  /** `weights or default_weights`. */
  function EffectiveWeights(weights: Option<Weights>): Weights
  {
    WeightsOr(weights, DefaultWeights)
  }

  /** `key in ['frequency', 'turbo_frequency']`. */
  predicate IsFrequency(key: string)
  {
    key == "frequency" || key == "turbo_frequency"
  }

  /** A frequency in MHz: `float(v.replace('GHz', '')) * 1000` for a str, `v * 1000` otherwise. */
  function Megahertz(v: Value): Result<real>
  {
    var ghz :- UnitFloat(v, "GHz");
    Ok(ghz * 1000.0)
  }

  /** The value the loop multiplies by the weight: a frequency in MHz, any other attribute as it is. */
  function Normalised(key: string, v: Value): Result<real>
  {
    if IsFrequency(key) then Megahertz(v) else Arith(v)
  }

  /** One weight entry's `score += value * weight`: nothing when the record lacks the key. */
  function Contribution(cpu: Record, key: string, weight: real): Result<real>
  {
    if key in cpu then Scale(Normalised(key, cpu[key]), weight) else Ok(0.0)
  }

  /** The contributions of the given weight keys, taken in any order; an exception if one raises. */
  ghost function WeightedSum(cpu: Record, w: Weights, keys: set<string>): Result<real>
    requires keys <= w.Keys
    decreases keys
  {
    if keys == {} then Ok(0.0)
    else var k := AnyKey(keys); Plus(Contribution(cpu, k, w[k]), WeightedSum(cpu, w, keys - {k}))
  }

  /** `weights.get('price', 0)`. */
  function PriceWeight(w: Weights): real
  {
    if "price" in w then w["price"] else 0.0
  }

  /** The second price term, after the loop: `score -= price * abs(weights.get('price', 0))` for a positive price. */
  function PriceExtra(cpu: Record, w: Weights): Result<real>
  {
    When(cpu, "price", PricePenalty(At(cpu, "price"), PriceWeight(w)))
  }

  /** A processor's score: the weighted sum over the weight table, then the price penalty. */
  ghost function CpuScore(cpu: Record, w: Weights): Result<real>
  {
    Plus(WeightedSum(cpu, w, w.Keys), PriceExtra(cpu, w))
  }

  /** The sum does not depend on the order the keys are walked in: any key can be taken first. */
  lemma {:induction false} WeightedSumRemove(cpu: Record, w: Weights, keys: set<string>, k: string)
    requires keys <= w.Keys && k in keys
    ensures WeightedSum(cpu, w, keys) == Plus(Contribution(cpu, k, w[k]), WeightedSum(cpu, w, keys - {k}))
    decreases keys
  {
    var first := AnyKey(keys);
    if first != k {
      WeightedSumRemove(cpu, w, keys - {first}, k);
      WeightedSumRemove(cpu, w, keys - {k}, first);
      assert keys - {first} - {k} == keys - {k} - {first};
    }
  }

  /** The sum raises exactly when one of its contributions does. */
  lemma {:induction false} WeightedSumRaises(cpu: Record, w: Weights, keys: set<string>)
    requires keys <= w.Keys
    ensures WeightedSum(cpu, w, keys).Raise? <==> exists k :: k in keys && Contribution(cpu, k, w[k]).Raise?
    decreases keys
  {
    if keys != {} {
      WeightedSumRaises(cpu, w, keys - {AnyKey(keys)});
    }
  }

  /** Two records and weight tables whose contributions agree on the keys have the same sum over them. */
  lemma {:induction false} WeightedSumAgree(cpu1: Record, w1: Weights, cpu2: Record, w2: Weights, keys: set<string>)
    requires keys <= w1.Keys && keys <= w2.Keys
    requires forall k :: k in keys ==> Contribution(cpu1, k, w1[k]) == Contribution(cpu2, k, w2[k])
    ensures WeightedSum(cpu1, w1, keys) == WeightedSum(cpu2, w2, keys)
    decreases keys
  {
    if keys != {} {
      WeightedSumAgree(cpu1, w1, cpu2, w2, keys - {AnyKey(keys)});
    }
  }

  /** Weight keys the record lacks add nothing: the sum is the sum over the keys both share. */
  lemma {:induction false} WeightedSumShared(cpu: Record, w: Weights, keys: set<string>)
    requires keys <= w.Keys
    ensures WeightedSum(cpu, w, keys) == WeightedSum(cpu, w, keys * cpu.Keys)
    decreases keys
  {
    if keys != {} {
      var k := AnyKey(keys);
      WeightedSumShared(cpu, w, keys - {k});
      if k in cpu {
        WeightedSumRemove(cpu, w, keys * cpu.Keys, k);
        assert (keys * cpu.Keys) - {k} == (keys - {k}) * cpu.Keys;
      } else {
        assert keys * cpu.Keys == (keys - {k}) * cpu.Keys;
      }
    }
  }

  /** The weight table cut down to the keys the record has. */
  function SharedWeights(cpu: Record, w: Weights): Weights
  {
    map k | k in w.Keys && k in cpu.Keys :: w[k]
  }

  /** Only keys present in both the weight table and the record contribute. */
  lemma OnlySharedKeysCount(cpu: Record, w: Weights)
    ensures CpuScore(cpu, w) == CpuScore(cpu, SharedWeights(cpu, w))
  {
    var s := SharedWeights(cpu, w);
    assert s.Keys == w.Keys * cpu.Keys && forall k :: k in s ==> s[k] == w[k];
    WeightedSumShared(cpu, w, w.Keys);
    WeightedSumAgree(cpu, w, cpu, s, s.Keys);
    assert "price" in cpu ==> PriceWeight(s) == PriceWeight(w);
  }

  /** An attribute the weight table does not name (other than `price`) does not change the score. */
  lemma UnweightedAttributeIgnored(cpu: Record, key: string, v: Value, w: Weights)
    requires key !in w && key != "price"
    ensures CpuScore(cpu[key := v], w) == CpuScore(cpu - {key}, w)
  {
    WeightedSumAgree(cpu[key := v], w, cpu - {key}, w, w.Keys);
    assert PriceExtra(cpu[key := v], w) == PriceExtra(cpu - {key}, w);
  }

  /** In the loop over the weight table, a weighted attribute adds exactly its own `value * weight`. */
  lemma WeightedSumDelta(cpu: Record, key: string, v: Value, w: Weights)
    requires key in w
    ensures WeightedSum(cpu[key := v], w, w.Keys)
         == Plus(WeightedSum(cpu - {key}, w, w.Keys), Scale(Normalised(key, v), w[key]))
  {
    var c1, c2 := cpu[key := v], cpu - {key};
    WeightedSumRemove(c1, w, w.Keys, key);
    WeightedSumRemove(c2, w, w.Keys, key);
    WeightedSumAgree(c1, w, c2, w, w.Keys - {key});
  }

  /**
   * A weighted attribute other than `price` contributes independently:
   * giving the record the attribute with value v changes the score by
   * exactly `value * weight`, the value normalised.
   */
  lemma AttributeDelta(cpu: Record, key: string, v: Value, w: Weights)
    requires key in w && key != "price"
    ensures CpuScore(cpu[key := v], w) == Plus(CpuScore(cpu - {key}, w), Scale(Normalised(key, v), w[key]))
  {
    WeightedSumDelta(cpu, key, v, w);
    PriceExtraIgnores(cpu, key, v, w);
    PlusSwap(WeightedSum(cpu - {key}, w, w.Keys), Scale(Normalised(key, v), w[key]), PriceExtra(cpu - {key}, w));
  }

  /** The price penalty reads only `price`. */
  lemma PriceExtraIgnores(cpu: Record, key: string, v: Value, w: Weights)
    requires key != "price"
    ensures PriceExtra(cpu[key := v], w) == PriceExtra(cpu - {key}, w)
  {
    assert ("price" in cpu[key := v]) == ("price" in cpu - {key});
    assert At(cpu[key := v], "price") == At(cpu - {key}, "price");
  }

  /**
   * Raising an attribute with a non-negative weight never lowers the
   * score, and raising one with a non-positive weight never raises it.
   */
  lemma WeightMonotone(cpu: Record, key: string, x1: real, x2: real, w: Weights)
    requires key in w && key != "price" && x1 <= x2 && CpuScore(cpu - {key}, w).Ok?
    ensures CpuScore(cpu[key := Num(x1)], w).Ok? && CpuScore(cpu[key := Num(x2)], w).Ok?
    ensures w[key] >= 0.0 ==> CpuScore(cpu[key := Num(x1)], w).value <= CpuScore(cpu[key := Num(x2)], w).value
    ensures w[key] <= 0.0 ==> CpuScore(cpu[key := Num(x1)], w).value >= CpuScore(cpu[key := Num(x2)], w).value
  {
    var base := CpuScore(cpu - {key}, w).value;
    var scale := if IsFrequency(key) then 1000.0 else 1.0;
    assert Normalised(key, Num(x1)) == Ok(x1 * scale);
    assert Normalised(key, Num(x2)) == Ok(x2 * scale);
    AttributeDelta(cpu, key, Num(x1), w);
    AttributeDelta(cpu, key, Num(x2), w);
    WeighMonotone(x1 * scale, x2 * scale, w[key]);
  }

  lemma WeighMonotone(x1: real, x2: real, weight: real)
    requires x1 <= x2
    ensures weight >= 0.0 ==> Weigh(x1, weight) <= Weigh(x2, weight)
    ensures weight <= 0.0 ==> Weigh(x1, weight) >= Weigh(x2, weight)
  {
    assert Weigh(x2, weight) - Weigh(x1, weight) == (x2 - x1) * weight;
  }

  /**
   * `price` is counted twice: the loop adds `price * w` and the
   * penalty then subtracts `price * |w|` for a positive price. With a
   * negative weight that costs `2 * |w| * price`; with a positive weight
   * the two terms cancel.
   */
  lemma PriceCountedTwice(cpu: Record, p: real, w: Weights)
    requires "price" in w && p > 0.0
    ensures CpuScore(cpu["price" := Num(p)], w)
         == Plus(CpuScore(cpu - {"price"}, w), Ok(Weigh(p, w["price"]) - p * Abs(w["price"])))
    ensures w["price"] <= 0.0 ==>
              CpuScore(cpu["price" := Num(p)], w) == Plus(CpuScore(cpu - {"price"}, w), Ok(-2.0 * p * Abs(w["price"])))
    ensures w["price"] >= 0.0 ==> CpuScore(cpu["price" := Num(p)], w) == CpuScore(cpu - {"price"}, w)
  {
    var loop, penalty := Weigh(p, w["price"]), -(p * Abs(w["price"]));
    PriceScoreParts(cpu, p, w);
    PlusAssoc(CpuScore(cpu - {"price"}, w), Ok(loop), Ok(penalty));
    PriceTermsNet(p, w["price"]);
  }

  /** The two places a positive price enters the score: the loop's term and the penalty. */
  lemma PriceScoreParts(cpu: Record, p: real, w: Weights)
    requires "price" in w && p > 0.0
    ensures CpuScore(cpu - {"price"}, w) == WeightedSum(cpu - {"price"}, w, w.Keys)
    ensures CpuScore(cpu["price" := Num(p)], w)
         == Plus(Plus(WeightedSum(cpu - {"price"}, w, w.Keys), Ok(Weigh(p, w["price"]))), Ok(-(p * Abs(w["price"]))))
  {
    var c1, c2 := cpu["price" := Num(p)], cpu - {"price"};
    WeightedSumDelta(cpu, "price", Num(p), w);
    assert Normalised("price", Num(p)) == Ok(p);
    assert PriceExtra(c1, w) == Ok(-(p * Abs(w["price"])));
    assert PriceExtra(c2, w) == Ok(0.0);
  }

  /** With a non-positive weight the two price terms add up to `-2 * p * |w|`; with a non-negative one they cancel. */
  lemma PriceTermsNet(p: real, weight: real)
    requires p > 0.0
    ensures Plus(Ok(0.0), Ok(Weigh(p, weight) - p * Abs(weight))) == Ok(Weigh(p, weight) - p * Abs(weight))
    ensures weight <= 0.0 ==> Weigh(p, weight) - p * Abs(weight) == -2.0 * p * Abs(weight)
    ensures weight >= 0.0 ==> Weigh(p, weight) - p * Abs(weight) == 0.0
  {
    if weight <= 0.0 {
      assert Abs(weight) == -weight;
    } else {
      assert Abs(weight) == weight;
    }
  }

  /**
   * Without a `price` weight a numeric price adds nothing and raises
   * nothing; a price that is not a number still raises at `price > 0`.
   */
  lemma MissingPriceWeight(cpu: Record, v: Value, w: Weights)
    requires "price" !in w
    ensures Arith(v).Ok? ==> CpuScore(cpu["price" := v], w) == CpuScore(cpu - {"price"}, w)
    ensures Arith(v).Raise? ==> CpuScore(cpu["price" := v], w) == Raise
  {
    WeightedSumAgree(cpu["price" := v], w, cpu - {"price"}, w, w.Keys);
  }

  /** A weighted attribute other than a frequency whose value is a str raises: the `'24MB'` cache. */
  lemma TextAttributeRaises(cpu: Record, key: string, w: Weights)
    requires key in cpu && key in w && !IsFrequency(key) && cpu[key].Str?
    ensures CpuScore(cpu, w) == Raise
  {
    WeightedSumRaises(cpu, w, w.Keys);
    assert Contribution(cpu, key, w[key]).Raise?;
  }

  /** A frequency written `'<whole>.<frac>GHz'` is that decimal number in MHz, as the bare number would be. */
  lemma FrequencyInGigahertz(whole: nat, frac: string)
    requires AllDigits(frac)
    ensures AllDigits(NatText(whole))
    ensures Megahertz(Str(DecimalText(whole, frac) + "GHz"))
         == Megahertz(Num(DecimalValue(NatText(whole), frac)))
         == Ok(DecimalValue(NatText(whole), frac) * 1000.0)
  {
    UnitFloatOfDecimal(whole, frac, "GHz");
  }

  /** `'3.5GHz'` and `3.5` are both 3500 MHz. */
  lemma ThreePointFiveGigahertz()
    ensures Megahertz(Str("3.5GHz")) == Megahertz(Num(3.5)) == Ok(3500.0)
  {
    assert NatText(3) == "3" by {
      assert DigitChar(3) == '3';
    }
    assert DecimalText(3, "5") + "GHz" == "3.5GHz";
    assert DecimalValue("3", "5") == 3.5 by {
      assert DigitsValue("3") == 3 by {
        assert "3"[..0] == [];
      }
      assert DigitsValue("5") == 5 by {
        assert "5"[..0] == [];
      }
      assert Pow10(|"5"|) == 10;
    }
    FrequencyInGigahertz(3, "5");
  }

  /** One processor's score: the loop over the weight table, then the price penalty. */
  method ScoreCpu(cpu: Record, w: Weights) returns (r: Result<real>)
    ensures r == CpuScore(cpu, w)
  {
    var score := 0.0;
    var pending := w.Keys;
    while pending != {}
      invariant pending <= w.Keys
      invariant WeightedSum(cpu, w, w.Keys) == Plus(Ok(score), WeightedSum(cpu, w, pending))
      decreases pending
    {
      var key :| key in pending;
      WeightedSumRemove(cpu, w, pending, key);
      if key in cpu {
        var value := Normalised(key, cpu[key]);
        if value.Raise? {
          return Raise;
        }
        score := score + Weigh(value.value, w[key]);
      }
      pending := pending - {key};
    }
    if "price" in cpu {
      var price :- Arith(cpu["price"]);
      if price > 0.0 {
        score := score - Weigh(price, Abs(PriceWeight(w)));
      }
    }
    return Ok(score);
  }

  ghost function CpuVerdict(cpu: Record, w: Weights): Verdict
  {
    match CpuScore(cpu, w)
    case Ok(s) => Scored(s)
    case Raise => Crash
  }

  ghost function Verdicts(cpus: seq<Record>, w: Weights): (vs: seq<Verdict>)
    ensures |vs| == |cpus|
  {
    seq(|cpus|, i requires 0 <= i < |cpus| => CpuVerdict(cpus[i], w))
  }

  /**
   * `select_best_cpu(cpus_list, weights)`: the first processor of maximal
   * score. With no filter, a non-empty list whose processors all score
   * always has a winner.
   */
  method SelectBestCpu(cpus: seq<Record>, weights: Option<Weights>) returns (r: Outcome<Record>)
    ensures IsBestOf(cpus, Verdicts(cpus, EffectiveWeights(weights)), r)
    ensures |cpus| == 0 ==> r == Returned(None, Fin(0.0))
    ensures |cpus| > 0 && (forall i :: 0 <= i < |cpus| ==> CpuScore(cpus[i], EffectiveWeights(weights)).Ok?) ==>
              r.Returned? && r.best.Some?
    ensures r.Returned? && r.best.Some? ==>
              CpuScore(r.best.value.item, EffectiveWeights(weights)) == Ok(r.score.value)
  {
    if |cpus| == 0 {
      return Returned(None, Fin(0.0));
    }
    var w := EffectiveWeights(weights);
    ghost var vs := Verdicts(cpus, w);
    var best: Option<Pick<Record>> := None;
    var bestScore := NegInf;
    for i := 0 to |cpus|
      invariant Running(cpus, vs, i, best, bestScore)
      invariant i > 0 ==> best.Some?
    {
      var cpu := cpus[i];
      var score := ScoreCpu(cpu, w);
      if score.Raise? {
        assert vs[i].Crash?;
        return Raised;
      }
      RunningStep(cpus, vs, i, best, bestScore);
      if Beats(score.value, bestScore) {
        bestScore := Fin(score.value);
        best := Some(Pick(i, cpu));
      }
    }
    return Returned(best, bestScore);
  }
}
