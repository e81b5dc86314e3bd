/**
 * `select_best_psu`: the power supply chosen for the draw of the other
 * components. A unit whose wattage is below the total draw is skipped;
 * the others are scored by how close they come to the recommended
 * wattage (the draw plus 20%, rounded up to the next 50 W step), by
 * their 80 PLUS certificate and cable modularity, and, once their
 * connectors are found to fit, by fan size, noise, warranty and price.
 */
module PowerUnit {
  import opened PyValues
  import opened Attributes
  import opened Selection
  import opened Sums

  const DefaultWeights: Weights := map[
    "power" := 1.5, "efficiency" := 2.0, "modular" := 1.2, "connectors" := 1.0,
    "fan_size" := 0.5, "noise_level" := -1.0, "warranty" := 0.8, "price" := -1.5]

  /** The weights the loop body indexes directly; `connectors` is never read. */
  const ScoredKeys: set<string> :=
    {"power", "efficiency", "modular", "fan_size", "noise_level", "warranty", "price"}

  /** `weights or default_weights`. */
  function EffectiveWeights(weights: Option<Weights>): Weights
  {
    WeightsOr(weights, DefaultWeights)
  }

  /** The 80 PLUS certificate tiers; `None` and any other label score 0, `'80+ Titanium'` included. */
  const EfficiencyTable: map<string, real> :=
    map["80+ Platinum" := 10.0, "80+ Gold" := 8.0, "80+ Silver" := 6.0, "80+ Bronze" := 4.0, "80+" := 2.0]

  const ModularTable: map<string, real> := map["Full" := 3.0, "Semi" := 2.0, "No" := 0.0]

  /**
   * `((total_power * 1.2) // 50 + 1) * 50`: the draw with a 20% reserve,
   * rounded up to a whole number of 50 W steps, one step further when it
   * already is one.
   */
  function RecommendedPower(total: real): (rec: real)
    ensures (rec / 50.0).Floor as real == rec / 50.0
    ensures total * 1.2 < rec <= total * 1.2 + 50.0
  {
    var steps := (total * 1.2 / 50.0).Floor;
    assert steps as real <= total * 1.2 / 50.0 < steps as real + 1.0;
    var rec := (steps + 1) as real * 50.0;
    assert rec / 50.0 == (steps + 1) as real;
    rec
  }

  /** `max(0, 100 - abs(wattage - recommended_power))`. */
  function PowerScore(wattage: real, rec: real): (s: real)
    ensures 0.0 <= s <= 100.0
    ensures s == 100.0 <==> wattage == rec
  {
    var fit := 100.0 - Abs(wattage - rec);
    if fit > 0.0 then fit else 0.0
  }

  /** A wattage nearer the recommendation never scores lower. */
  lemma PowerScoreCloser(w1: real, w2: real, rec: real)
    requires Abs(w1 - rec) <= Abs(w2 - rec)
    ensures PowerScore(w1, rec) >= PowerScore(w2, rec)
  {
  }

  /** The certificate term: `efficiency_map.get(psu.get('efficiency'), 0) * weights['efficiency']`. */
  function EfficiencyTerm(psu: Record, w: Weights): Result<real>
    requires ScoredKeys <= w.Keys
  {
    Scale(HashedGet(EfficiencyTable, GetOr(psu, "efficiency", Null), 0.0), w["efficiency"])
  }

  /** The modularity term: `modular_map.get(psu.get('modular', 'No'), 0) * weights['modular']`. */
  function ModularTerm(psu: Record, w: Weights): Result<real>
    requires ScoredKeys <= w.Keys
  {
    Scale(HashedGet(ModularTable, GetOr(psu, "modular", Str("No")), 0.0), w["modular"])
  }

  /** The score before the connector check: power fit, certificate and modularity, in that order. */
  function BaseScore(psu: Record, wattage: real, rec: real, w: Weights): Result<real>
    requires ScoredKeys <= w.Keys
  {
    Plus(Plus(Ok(Weigh(PowerScore(wattage, rec), w["power"])), EfficiencyTerm(psu, w)), ModularTerm(psu, w))
  }

  /** `components_power.get(part, 0)`. */
  function Draw(power: map<string, real>, part: string): real
  {
    if part in power then power[part] else 0.0
  }

  /** `connectors.get(plug, 0) < 1`: AttributeError unless the connectors are a dict. */
  function Lacks(connectors: Value, plug: string): Result<bool>
  {
    match connectors
    case Rec(c) =>
      var n :- Arith(GetOr(c, plug, Num(0.0)));
      Ok(n < 1.0)
    case _ => Raise
  }

  /**
   * The connector check: true unless the unit lists its connectors and a
   * powered graphics card finds no 8-pin PCIe plug or a powered processor
   * no 8-pin CPU plug. Both tests run; each reads the connectors only when
   * its part draws power.
   */
  function ConnectorsFit(psu: Record, power: map<string, real>): Result<bool>
  {
    if "connectors" !in psu then Ok(true)
    else
      var gpuLacks :- if Draw(power, "gpu") > 0.0 then Lacks(psu["connectors"], "pcie_8pin") else Ok(false);
      var cpuLacks :- if Draw(power, "cpu") > 0.0 then Lacks(psu["connectors"], "cpu_8pin") else Ok(false);
      Ok(!gpuLacks && !cpuLacks)
  }

  function FanTerm(psu: Record, w: Weights): Result<real>
    requires ScoredKeys <= w.Keys
  {
    When(psu, "fan_size", Scale(UnitInt(At(psu, "fan_size"), "mm"), w["fan_size"]))
  }

  /** `score -= noise * abs(weights['noise_level'])`: noise lowers the score whatever the weight's sign. */
  function NoiseTerm(psu: Record, w: Weights): Result<real>
    requires ScoredKeys <= w.Keys
  {
    When(psu, "noise_level", (var noise :- UnitFloat(At(psu, "noise_level"), "dB");
                               Ok(-Weigh(noise, Abs(w["noise_level"])))))
  }

  function WarrantyTerm(psu: Record, w: Weights): Result<real>
    requires ScoredKeys <= w.Keys
  {
    When(psu, "warranty", Scale(UnitInt(At(psu, "warranty"), " years"), w["warranty"]))
  }

  function PriceTerm(psu: Record, w: Weights): Result<real>
    requires ScoredKeys <= w.Keys
  {
    When(psu, "price", PricePenalty(At(psu, "price"), w["price"]))
  }

  /** The score after the connector check: the extras added to the base, in source order. */
  function Extras(psu: Record, base: real, w: Weights): Result<real>
    requires ScoredKeys <= w.Keys
  {
    Plus(Plus(Plus(Plus(Ok(base), FanTerm(psu, w)), NoiseTerm(psu, w)), WarrantyTerm(psu, w)), PriceTerm(psu, w))
  }

  /**
   * What the loop body does with one unit, total being the summed draw:
   * `psu['wattage']` raises when missing or not a number; an underpowered
   * unit is skipped before anything else is read; an exception in the
   * base terms, the connector check or the extras escapes; a unit whose
   * connectors do not fit is skipped.
   */
  function PsuVerdict(psu: Record, total: real, power: map<string, real>, w: Weights): Verdict
    requires ScoredKeys <= w.Keys
  {
    if "wattage" !in psu then Crash
    else match Arith(psu["wattage"])
      case Raise => Crash
      case Ok(wattage) =>
        if wattage < total then Skip
        else match BaseScore(psu, wattage, RecommendedPower(total), w)
          case Raise => Crash
          case Ok(base) =>
            match ConnectorsFit(psu, power)
            case Raise => Crash
            case Ok(fits) =>
              if !fits then Skip
              else match Extras(psu, base, w)
                case Raise => Crash
                case Ok(s) => Scored(s)
  }

  function Verdicts(psus: seq<Record>, total: real, power: map<string, real>, w: Weights): (vs: seq<Verdict>)
    requires ScoredKeys <= w.Keys
    ensures |vs| == |psus|
  {
    seq(|psus|, i requires 0 <= i < |psus| => PsuVerdict(psus[i], total, power, w))
  }

  /** Only a unit with at least the total draw and fitting connectors is ever scored. */
  lemma ScoredUnitSuffices(psu: Record, total: real, power: map<string, real>, w: Weights)
    requires ScoredKeys <= w.Keys && PsuVerdict(psu, total, power, w).Scored?
    ensures "wattage" in psu && Arith(psu["wattage"]).Ok? && Arith(psu["wattage"]).value >= total
    ensures ConnectorsFit(psu, power) == Ok(true)
  {
  }

  /** An underpowered unit is skipped, whatever else its record holds, however malformed. */
  lemma UnderpoweredSkipped(psu: Record, total: real, power: map<string, real>, w: Weights, wattage: real)
    requires ScoredKeys <= w.Keys
    requires "wattage" in psu && Arith(psu["wattage"]) == Ok(wattage) && wattage < total
    ensures PsuVerdict(psu, total, power, w) == Skip
  {
  }

  /**
   * With a dict of connectors whose plug counts are numbers, the check
   * holds exactly when each part that draws power has an 8-pin plug; a
   * plug missing from the dict counts as none.
   */
  lemma ConnectorsFitDict(psu: Record, power: map<string, real>, c: map<string, Value>)
    requires "connectors" in psu && psu["connectors"] == Rec(c)
    requires Arith(GetOr(c, "pcie_8pin", Num(0.0))).Ok? && Arith(GetOr(c, "cpu_8pin", Num(0.0))).Ok?
    ensures ConnectorsFit(psu, power) == Ok(
              && (Draw(power, "gpu") > 0.0 ==> Arith(GetOr(c, "pcie_8pin", Num(0.0))).value >= 1.0)
              && (Draw(power, "cpu") > 0.0 ==> Arith(GetOr(c, "cpu_8pin", Num(0.0))).value >= 1.0))
  {
  }

  /** When neither the graphics card nor the processor draws power, any connectors value fits, even one that is not a dict. */
  lemma ConnectorsFitUnpowered(psu: Record, power: map<string, real>)
    requires Draw(power, "gpu") <= 0.0 && Draw(power, "cpu") <= 0.0
    ensures ConnectorsFit(psu, power) == Ok(true)
  {
  }

  /** A powered graphics card and a connectors value that is not a dict raise. */
  lemma ConnectorsNotDictRaise(psu: Record, power: map<string, real>)
    requires "connectors" in psu && !psu["connectors"].Rec? && Draw(power, "gpu") > 0.0
    ensures ConnectorsFit(psu, power) == Raise
  {
  }

  /** p and q hold the same attributes, with the same values, except perhaps key. */
  ghost predicate SameExcept(p: Record, q: Record, key: string)
  {
    forall k :: k != key ==> (k in p <==> k in q) && (k in p ==> p[k] == q[k])
  }

  /** Records that differ at most in one attribute agree on every check and base term that does not read it. */
  lemma ChecksAgree(p: Record, q: Record, key: string, power: map<string, real>, w: Weights)
    requires ScoredKeys <= w.Keys && SameExcept(p, q, key)
    ensures key != "wattage" ==> ("wattage" in p <==> "wattage" in q) && ("wattage" in p ==> p["wattage"] == q["wattage"])
    ensures key != "efficiency" ==> EfficiencyTerm(p, w) == EfficiencyTerm(q, w)
    ensures key != "modular" ==> ModularTerm(p, w) == ModularTerm(q, w)
    ensures key != "connectors" ==> ConnectorsFit(p, power) == ConnectorsFit(q, power)
  {
    if key != "efficiency" {
      assert GetOr(p, "efficiency", Null) == GetOr(q, "efficiency", Null);
    }
    if key != "modular" {
      assert GetOr(p, "modular", Str("No")) == GetOr(q, "modular", Str("No"));
    }
    if key != "connectors" {
      assert ("connectors" in p <==> "connectors" in q) && ("connectors" in p ==> p["connectors"] == q["connectors"]);
    }
  }

  /** Records that differ at most in one attribute agree on every extra that does not read it. */
  lemma ExtrasAgree(p: Record, q: Record, key: string, w: Weights)
    requires ScoredKeys <= w.Keys && SameExcept(p, q, key)
    ensures key != "fan_size" ==> FanTerm(p, w) == FanTerm(q, w)
    ensures key != "noise_level" ==> NoiseTerm(p, w) == NoiseTerm(q, w)
    ensures key != "warranty" ==> WarrantyTerm(p, w) == WarrantyTerm(q, w)
    ensures key != "price" ==> PriceTerm(p, w) == PriceTerm(q, w)
  {
    if key != "fan_size" {
      assert ("fan_size" in p <==> "fan_size" in q) && At(p, "fan_size") == At(q, "fan_size");
    }
    if key != "noise_level" {
      assert ("noise_level" in p <==> "noise_level" in q) && At(p, "noise_level") == At(q, "noise_level");
    }
    if key != "warranty" {
      assert ("warranty" in p <==> "warranty" in q) && At(p, "warranty") == At(q, "warranty");
    }
    if key != "price" {
      assert ("price" in p <==> "price" in q) && At(p, "price") == At(q, "price");
    }
  }

  /** The verdict depends on a record only through its wattage, its terms and its connector check. */
  lemma VerdictFromTerms(p: Record, q: Record, total: real, power: map<string, real>, w: Weights)
    requires ScoredKeys <= w.Keys
    requires ("wattage" in p <==> "wattage" in q) && ("wattage" in p ==> p["wattage"] == q["wattage"])
    requires EfficiencyTerm(p, w) == EfficiencyTerm(q, w) && ModularTerm(p, w) == ModularTerm(q, w)
    requires ConnectorsFit(p, power) == ConnectorsFit(q, power)
    requires FanTerm(p, w) == FanTerm(q, w) && NoiseTerm(p, w) == NoiseTerm(q, w)
    requires WarrantyTerm(p, w) == WarrantyTerm(q, w) && PriceTerm(p, w) == PriceTerm(q, w)
    ensures PsuVerdict(p, total, power, w) == PsuVerdict(q, total, power, w)
  {
  }

  /** Noise always lowers a unit's score, by its level times the weight's magnitude. */
  lemma NoiseLowersScore(psu: Record, total: real, power: map<string, real>, w: Weights, noise: real, s: real)
    requires ScoredKeys <= w.Keys
    requires PsuVerdict(psu - {"noise_level"}, total, power, w) == Scored(s)
    ensures PsuVerdict(psu["noise_level" := Num(noise)], total, power, w)
         == Scored(s - noise * Abs(w["noise_level"]))
  {
    var p, q := psu - {"noise_level"}, psu["noise_level" := Num(noise)];
    ChecksAgree(p, q, "noise_level", power, w);
    ExtrasAgree(p, q, "noise_level", w);
    assert NoiseTerm(p, w) == Ok(0.0);
    assert NoiseTerm(q, w) == Ok(-Weigh(noise, Abs(w["noise_level"])));
  }

  /** A positive price lowers a unit's score by the price times the weight's magnitude; any other price leaves it. */
  lemma PriceLowersScore(psu: Record, total: real, power: map<string, real>, w: Weights, price: real, s: real)
    requires ScoredKeys <= w.Keys
    requires PsuVerdict(psu - {"price"}, total, power, w) == Scored(s)
    ensures PsuVerdict(psu["price" := Num(price)], total, power, w)
         == Scored(if price > 0.0 then s - price * Abs(w["price"]) else s)
  {
    var p, q := psu - {"price"}, psu["price" := Num(price)];
    ChecksAgree(p, q, "price", power, w);
    ExtrasAgree(p, q, "price", w);
    assert PriceTerm(p, w) == Ok(0.0);
    assert PriceTerm(q, w) == PricePenalty(Num(price), w["price"]);
  }

  /** `'80+ Titanium'`, missing from the certificate table, scores like no certificate at all. */
  lemma TitaniumScoresAsNone(psu: Record, total: real, power: map<string, real>, w: Weights)
    requires ScoredKeys <= w.Keys
    ensures PsuVerdict(psu["efficiency" := Str("80+ Titanium")], total, power, w)
         == PsuVerdict(psu - {"efficiency"}, total, power, w)
  {
    var p, q := psu["efficiency" := Str("80+ Titanium")], psu - {"efficiency"};
    ChecksAgree(p, q, "efficiency", power, w);
    ExtrasAgree(p, q, "efficiency", w);
    assert "80+ Titanium" !in EfficiencyTable;
    assert EfficiencyTerm(p, w) == EfficiencyTerm(q, w);
    VerdictFromTerms(p, q, total, power, w);
  }

  /** A unit that does not state its modularity is scored as non-modular (`'No'`). */
  lemma MissingModularIsNo(psu: Record, total: real, power: map<string, real>, w: Weights)
    requires ScoredKeys <= w.Keys
    ensures PsuVerdict(psu - {"modular"}, total, power, w)
         == PsuVerdict(psu["modular" := Str("No")], total, power, w)
  {
    var p, q := psu - {"modular"}, psu["modular" := Str("No")];
    ChecksAgree(p, q, "modular", power, w);
    ExtrasAgree(p, q, "modular", w);
    assert ModularTerm(p, w) == ModularTerm(q, w);
    VerdictFromTerms(p, q, total, power, w);
  }

  /** The power fit, certificate and modularity terms, accumulated in source order. */
  method ScoreBase(psu: Record, wattage: real, rec: real, w: Weights) returns (r: Result<real>)
    requires ScoredKeys <= w.Keys
    ensures r == BaseScore(psu, wattage, rec, w)
  {
    var score := Weigh(PowerScore(wattage, rec), w["power"]);
    var efficiency :- HashedGet(EfficiencyTable, GetOr(psu, "efficiency", Null), 0.0);
    score := score + Weigh(efficiency, w["efficiency"]);
    var modular :- HashedGet(ModularTable, GetOr(psu, "modular", Str("No")), 0.0);
    score := score + Weigh(modular, w["modular"]);
    return Ok(score);
  }

  /** `connectors_ok`, computed as the loop body does. */
  method CheckConnectors(psu: Record, power: map<string, real>) returns (r: Result<bool>)
    ensures r == ConnectorsFit(psu, power)
  {
    var fits := true;
    if "connectors" in psu {
      if Draw(power, "gpu") > 0.0 {
        var lacks :- Lacks(psu["connectors"], "pcie_8pin");
        if lacks {
          fits := false;
        }
      }
      if Draw(power, "cpu") > 0.0 {
        var lacks :- Lacks(psu["connectors"], "cpu_8pin");
        if lacks {
          fits := false;
        }
      }
    }
    return Ok(fits);
  }

  /** Fan size, noise, warranty and price, added to the base score in source order. */
  method ScoreExtras(psu: Record, base: real, w: Weights) returns (r: Result<real>)
    requires ScoredKeys <= w.Keys
    ensures r == Extras(psu, base, w)
  {
    var score := base;
    if "fan_size" in psu {
      var fan :- UnitInt(psu["fan_size"], "mm");
      score := score + Weigh(fan, w["fan_size"]);
    }
    assert Plus(Ok(base), FanTerm(psu, w)) == Ok(score);
    if "noise_level" in psu {
      assert NoiseTerm(psu, w).Raise? <==> UnitFloat(psu["noise_level"], "dB").Raise?;
      var noise :- UnitFloat(psu["noise_level"], "dB");
      score := score - Weigh(noise, Abs(w["noise_level"]));
    }
    assert Plus(Plus(Ok(base), FanTerm(psu, w)), NoiseTerm(psu, w)) == Ok(score);
    if "warranty" in psu {
      var warranty :- UnitInt(psu["warranty"], " years");
      score := score + Weigh(warranty, w["warranty"]);
    }
    assert Plus(Plus(Plus(Ok(base), FanTerm(psu, w)), NoiseTerm(psu, w)), WarrantyTerm(psu, w)) == Ok(score);
    if "price" in psu {
      var price :- Arith(psu["price"]);
      if price > 0.0 {
        score := score - Weigh(price, Abs(w["price"]));
      }
    }
    return Ok(score);
  }

  /** One pass of the loop body, with the recommendation computed once before the loop. */
  method AssessPsu(psu: Record, total: real, rec: real, power: map<string, real>, w: Weights)
    returns (v: Verdict)
    requires ScoredKeys <= w.Keys && rec == RecommendedPower(total)
    ensures v == PsuVerdict(psu, total, power, w)
  {
    if "wattage" !in psu {
      return Crash;
    }
    var wattage := Arith(psu["wattage"]);
    if wattage.Raise? {
      return Crash;
    }
    if wattage.value < total {
      return Skip;
    }
    var base := ScoreBase(psu, wattage.value, rec, w);
    if base.Raise? {
      return Crash;
    }
    var fits := CheckConnectors(psu, power);
    if fits.Raise? {
      return Crash;
    }
    if !fits.value {
      return Skip;
    }
    var score := ScoreExtras(psu, base.value, w);
    if score.Raise? {
      return Crash;
    }
    return Scored(score.value);
  }

  /**
   * `select_best_psu(psu_list, components_power, weights)`: the first
   * unit of highest score among those that are not skipped; it has at
   * least the total draw of the components.
   */
  method SelectBestPsu(psus: seq<Record>, power: map<string, real>, weights: Option<Weights>)
    returns (r: Outcome<Record>)
    requires ScoredKeys <= EffectiveWeights(weights).Keys
    ensures IsBestOf(psus, Verdicts(psus, SumOver(power, power.Keys), power, EffectiveWeights(weights)), r)
    ensures psus == [] ==> r == Returned(None, Fin(0.0))
    ensures r.Returned? && r.best.Some? ==>
              var psu := r.best.value.item;
              "wattage" in psu && Arith(psu["wattage"]).Ok?
              && Arith(psu["wattage"]).value >= SumOver(power, power.Keys)
  {
    if psus == [] {
      return Returned(None, Fin(0.0));
    }
    var total := SumValues(power);
    var rec := RecommendedPower(total);
    var w := EffectiveWeights(weights);
    ghost var vs := Verdicts(psus, total, power, w);
    var best: Option<Pick<Record>> := None;
    var bestScore := NegInf;
    for i := 0 to |psus|
      invariant Running(psus, vs, i, best, bestScore)
    {
      var v := AssessPsu(psus[i], total, rec, power, w);
      assert v == vs[i];
      if v.Crash? {
        return Raised;
      }
      RunningStep(psus, vs, i, best, bestScore);
      if v.Scored? && Beats(v.score, bestScore) {
        best := Some(Pick(i, psus[i]));
        bestScore := Fin(v.score);
      }
    }
    r := Returned(best, bestScore);
    if best.Some? {
      ScoredUnitSuffices(best.value.item, total, power, w);
    }
  }
}
