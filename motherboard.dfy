/**
 * `select_best_motherboard`: drop the boards whose socket differs from the
 * processor's (when one is given), score the rest by a weighted sum of
 * their normalised attributes, and return the first board of maximal score.
 */
module Motherboard {
  import opened PyValues
  import opened Text
  import opened Attributes
  import opened Selection

  /** The default weight table. */
  const DefaultWeights: Weights := map[
    "chipset" := 1.2, "ram_slots" := 0.8, "max_ram" := 1.5, "ram_speed" := 1.0,
    "m2_slots" := 1.3, "sata_ports" := 0.5, "usb_ports" := 0.7, "pcie_slots" := 1.2,
    "vrm_quality" := 1.4, "price" := -1.0, "wifi" := 0.6, "bluetooth" := 0.4, "audio" := 0.5]

  /** The number of scored attributes. */
  const Count: nat := 13

  /** The i-th scored attribute, in the order the loop body scores them. */
  function Key(i: nat): string
    requires i < Count
  {
    match i
    case 0 => "chipset"
    case 1 => "ram_slots"
    case 2 => "max_ram"
    case 3 => "ram_speed"
    case 4 => "m2_slots"
    case 5 => "sata_ports"
    case 6 => "usb_ports"
    case 7 => "pcie_slots"
    case 8 => "vrm_quality"
    case 9 => "wifi"
    case 10 => "bluetooth"
    case 11 => "audio"
    case 12 => "price"
  }

  /** The weight table is indexed with each of these. */
  const ScoredKeys: set<string> := {
    "chipset", "ram_slots", "max_ram", "ram_speed", "m2_slots", "sata_ports", "usb_ports",
    "pcie_slots", "vrm_quality", "wifi", "bluetooth", "audio", "price"}

  /** `weights or default_weights`. */
  function EffectiveWeights(weights: Option<Weights>): Weights
  {
    WeightsOr(weights, DefaultWeights)
  }

  /** Each scored attribute has one position, and it is one of the scored set. */
  lemma KeysAreScoredKeys()
    ensures forall i, j :: 0 <= i < Count && 0 <= j < Count && i != j ==> Key(i) != Key(j)
    ensures forall i :: 0 <= i < Count ==> Key(i) in ScoredKeys
  {
  }

  /** The chipset families, most premium first, with their tiers. */
  const ChipsetTable: seq<(string, real)> :=
    [("X670E", 10.0), ("Z790", 9.0), ("B650", 8.0), ("Z690", 7.0), ("B660", 6.0)]

  /**
   * The chipset tier of a chipset name: the tier of the first family, in
   * table order, found in the upper-cased name, or 5 when none is.
   */
  function ChipsetTier(name: string): (tier: real)
    ensures 5.0 <= tier <= 10.0
  {
    FirstMatch(ChipsetTable, Upper(name), 5.0)
  }

  /** The first family found decides the tier, whatever later families also occur. */
  lemma ChipsetTierFirstFamily(name: string, i: nat)
    requires i < |ChipsetTable| && Contains(Upper(name), ChipsetTable[i].0)
    requires forall j :: 0 <= j < i ==> !Contains(Upper(name), ChipsetTable[j].0)
    ensures ChipsetTier(name) == ChipsetTable[i].1
  {
    FirstMatchFinds(ChipsetTable, Upper(name), 5.0, i);
  }

  /** A name containing none of the families gets tier 5. */
  lemma ChipsetTierUnknown(name: string)
    requires forall j :: 0 <= j < |ChipsetTable| ==> !Contains(Upper(name), ChipsetTable[j].0)
    ensures ChipsetTier(name) == 5.0
  {
    FirstMatchMisses(ChipsetTable, Upper(name), 5.0);
  }

  /** The tier does not depend on the case the name is written in. */
  lemma ChipsetTierIgnoresCase(name: string)
    ensures ChipsetTier(Lower(name)) == ChipsetTier(name)
  {
    UpperOfLower(name);
  }

  /** The codecs the audio tier recognises, best first. */
  const AudioTable: seq<(string, real)> := [("ALC1220", 2.0), ("ALC1200", 1.5), ("ALC897", 1.0)]

  /**
   * The audio tier of a codec value (`'ALC1220' in codec` and so on): a
   * substring test on a str, membership on a list or dict, TypeError on
   * anything else.
   */
  function AudioTier(codec: Value): (r: Result<real>)
    ensures r.Ok? <==> IsContainer(codec)
    ensures r.Ok? ==> r.value == 2.0 || r.value == 1.5 || r.value == 1.0 || r.value == 0.5
  {
    if !IsContainer(codec) then Raise
    else if Member("ALC1220", codec) then Ok(2.0)
    else if Member("ALC1200", codec) then Ok(1.5)
    else if Member("ALC897", codec) then Ok(1.0)
    else Ok(0.5)
  }

  /** For a codec name the if-chain is the ordered table ALC1220 > ALC1200 > ALC897, else 0.5. */
  lemma AudioTierByTable(codec: string)
    ensures AudioTier(Str(codec)) == Ok(FirstMatch(AudioTable, codec, 0.5))
  {
    var t := AudioTable;
    assert FirstMatch(t[1..][1..][1..], codec, 0.5) == 0.5;
    assert FirstMatch(t[1..][1..], codec, 0.5) == if Contains(codec, "ALC897") then 1.0 else 0.5;
    assert FirstMatch(t[1..], codec, 0.5) == if Contains(codec, "ALC1200") then 1.5 else FirstMatch(t[1..][1..], codec, 0.5);
  }

  /** An `audio` record without a `codec` field reads as codec `''`, the lowest tier. */
  lemma AudioWithoutCodec(audio: map<string, Value>)
    requires "codec" !in audio
    ensures AudioTier(FieldOr(Rec(audio), "codec", Str(""))) == Ok(0.5)
  {
    assert !Contains("", "ALC1220") && !Contains("", "ALC1200") && !Contains("", "ALC897");
  }

  /** `float(v.replace('PCIe ', ''))`: the version must be a str. */
  function SlotVersion(v: Value): Result<real>
  {
    match v
    case Str(s) =>
      (match ParseFloat(RemoveAll(s, "PCIe "))
       case Some(x) => Ok(x)
       case None => Raise)
    case _ => Raise
  }

  /** `'PCIe <w>.<f>'` is version `<w>.<f>`. */
  lemma SlotVersionOfText(whole: nat, frac: string)
    requires AllDigits(frac)
    ensures AllDigits(NatText(whole))
    ensures SlotVersion(Str("PCIe " + DecimalText(whole, frac))) == Ok(DecimalValue(NatText(whole), frac))
  {
    var t := DecimalText(whole, frac);
    DigitsAvoid(NatText(whole), 'P');
    DigitsAvoid(frac, 'P');
    assert Avoids(t, 'P') by {
      forall i | 0 <= i < |t| ensures t[i] != 'P' {
        if i < |NatText(whole)| {
          assert t[i] == NatText(whole)[i];
        } else if i > |NatText(whole)| {
          assert t[i] == frac[i - |NatText(whole)| - 1];
        }
      }
    }
    RemovePrefixToken("PCIe ", t);
    ParseFloatDecimalText(whole, frac);
  }

  /** One slot's share: `version * (1 if slot['x16'] else 0.5)`; a slot must be a dict with both fields. */
  function SlotValue(slot: Value): Result<real>
  {
    match slot
    case Rec(f) =>
      if "version" !in f then Raise
      else
        var version :- SlotVersion(f["version"]);
        if "x16" !in f then Raise
        else Ok(version * (if Truthy(f["x16"]) then 1.0 else 0.5))
    case _ => Raise
  }

  /** A slot `{'version': 'PCIe <w>.<f>', 'x16': b}` contributes the version, halved unless b is truthy. */
  lemma SlotValueOfVersion(whole: nat, frac: string, x16: Value)
    requires AllDigits(frac)
    ensures AllDigits(NatText(whole))
    ensures SlotValue(Rec(map["version" := Str("PCIe " + DecimalText(whole, frac)), "x16" := x16]))
         == Ok(DecimalValue(NatText(whole), frac) * (if Truthy(x16) then 1.0 else 0.5))
  {
    SlotVersionOfText(whole, frac);
  }

  /** `for slot in v`: a list gives its elements; an empty str or dict gives none; any other value raises. */
  function Slots(v: Value): (r: Result<seq<Value>>)
    ensures r.Ok? <==> v.Lst? || v == Str("") || v == Rec(map[])
    ensures r.Ok? ==> r.value == if v.Lst? then v.items else []
  {
    match v
    case Lst(xs) => Ok(xs)
    // a character or a key is a str, and `s['version']` raises TypeError
    case Str(s) => if s == "" then Ok([]) else Raise
    case Rec(f) => if |f| == 0 then Ok([]) else Raise
    case _ => Raise
  }

  /** The PCIe score of a slot list: the sum of the slots' shares, or an exception if one raises. */
  function PcieSum(slots: seq<Value>): Result<real>
  {
    if slots == [] then Ok(0.0) else Plus(SlotValue(slots[0]), PcieSum(slots[1..]))
  }

  /** Every slot contributes on its own: the score of two lists together is the sum of their scores. */
  lemma {:induction false} PcieSumAppend(a: seq<Value>, b: seq<Value>)
    ensures PcieSum(a + b) == Plus(PcieSum(a), PcieSum(b))
  {
    if a == [] {
      assert a + b == b;
    } else {
      assert (a + b)[0] == a[0];
      assert (a + b)[1..] == a[1..] + b;
      PcieSumAppend(a[1..], b);
      PlusAssoc(SlotValue(a[0]), PcieSum(a[1..]), PcieSum(b));
    }
  }

  /** The sum from slot i on is slot i's share plus the sum after it. */
  lemma PcieSumStep(slots: seq<Value>, i: nat)
    requires i < |slots|
    ensures PcieSum(slots[i..]) == Plus(SlotValue(slots[i]), PcieSum(slots[i + 1..]))
  {
    assert slots[i..][1..] == slots[i + 1..];
  }

  /** The inner loop over the slots, accumulating `pcie_score`. */
  method PcieScore(slots: seq<Value>) returns (r: Result<real>)
    ensures r == PcieSum(slots)
  {
    var pcieScore := 0.0;
    for i := 0 to |slots|
      invariant PcieSum(slots) == Plus(Ok(pcieScore), PcieSum(slots[i..]))
    {
      var share := SlotValue(slots[i]);
      PcieSumStep(slots, i);
      PlusShift(pcieScore, share, PcieSum(slots[i + 1..]));
      if share.Raise? {
        return Raise;
      }
      pcieScore := pcieScore + share.value;
    }
    assert slots[|slots|..] == [];
    return Ok(pcieScore);
  }

  /** `chip_score * weights['chipset']`; `.upper()` exists only on a str. */
  function ChipsetPart(v: Value, weight: real): Result<real>
  {
    if v.Str? then Ok(Weigh(ChipsetTier(v.s), weight)) else Raise
  }

  /** `pcie_score * weights['pcie_slots']` over the iterated slots. */
  function PciePart(v: Value, weight: real): Result<real>
  {
    var slots :- Slots(v);
    Scale(PcieSum(slots), weight)
  }

  /** `weights[key]` when the flag is truthy, else nothing. */
  function FlagPart(v: Value, weight: real): Result<real>
  {
    Ok(if Truthy(v) then weight else 0.0)
  }

  /** `audio_score * weights['audio']`, the codec read from a dict's `codec` field. */
  function AudioPart(v: Value, weight: real): Result<real>
  {
    Scale(AudioTier(FieldOr(v, "codec", Str(""))), weight)
  }

  /** What the i-th scored attribute adds when the board has it with value v, or the exception it raises. */
  function Part(i: nat, v: Value, w: Weights): Result<real>
    requires i < Count && ScoredKeys <= w.Keys
  {
    match i
    case 0 => ChipsetPart(v, w["chipset"])
    case 1 => Scale(Arith(v), w["ram_slots"])
    case 2 => Scale(UnitInt(v, "GB"), w["max_ram"])
    case 3 => (var ramSpeed :- UnitInt(v, "MHz"); Ok(Weigh(ramSpeed, w["ram_speed"]) / 1000.0))
    case 4 => Scale(Arith(v), w["m2_slots"])
    case 5 => Scale(Arith(v), w["sata_ports"])
    case 6 => Scale(Arith(FieldOr(v, "total", Num(0.0))), w["usb_ports"])
    case 7 => PciePart(v, w["pcie_slots"])
    case 8 => Scale(Arith(FieldOr(v, "phases", Num(0.0))), w["vrm_quality"])
    case 9 => FlagPart(v, w["wifi"])
    case 10 => FlagPart(v, w["bluetooth"])
    case 11 => AudioPart(v, w["audio"])
    case 12 => PricePenalty(v, w["price"])
  }

  /** The i-th attribute's contribution: its part when the board has it, nothing otherwise. */
  function Term(b: Record, w: Weights, i: nat): Result<real>
    requires i < Count && ScoredKeys <= w.Keys
  {
    if Key(i) in b then Part(i, b[Key(i)], w) else Ok(0.0)
  }

  /** The running `score` after the loop body has handled the first n scored attributes. */
  function Prefix(b: Record, w: Weights, n: nat): Result<real>
    requires n <= Count && ScoredKeys <= w.Keys
  {
    if n == 0 then Ok(0.0) else Plus(Prefix(b, w, n - 1), Term(b, w, n - 1))
  }

  /** A board's score: the sum of all its attributes' contributions, or an exception if one raises. */
  function BoardScore(b: Record, w: Weights): Result<real>
    requires ScoredKeys <= w.Keys
  {
    Prefix(b, w, Count)
  }

  /** The score raises exactly when some attribute's contribution does. */
  lemma {:induction false} PrefixRaises(b: Record, w: Weights, n: nat)
    requires n <= Count && ScoredKeys <= w.Keys
    ensures Prefix(b, w, n).Raise? <==> exists i :: 0 <= i < n && Term(b, w, i).Raise?
  {
    if n > 0 {
      PrefixRaises(b, w, n - 1);
    }
  }

  /** Once the running score has raised, it stays raised up to attribute m. */
  lemma RaiseSticksAt(b: Record, w: Weights, m: nat)
    requires m <= Count && ScoredKeys <= w.Keys
    ensures forall n :: 0 <= n <= m && Prefix(b, w, n).Raise? ==> Prefix(b, w, m).Raise?
  {
    PrefixRaises(b, w, m);
    forall n | 0 <= n <= m && Prefix(b, w, n).Raise?
      ensures Prefix(b, w, m).Raise?
    {
      PrefixRaises(b, w, n);
    }
  }

  /** Two boards whose terms agree except the k-th, which the second board lacks. */
  lemma {:induction false} PrefixDelta(b1: Record, b2: Record, w: Weights, k: nat, n: nat)
    requires k < Count && n <= Count && ScoredKeys <= w.Keys
    requires forall i :: 0 <= i < Count && i != k ==> Term(b1, w, i) == Term(b2, w, i)
    requires Term(b2, w, k) == Ok(0.0)
    ensures Prefix(b1, w, n) == Plus(Prefix(b2, w, n), if k < n then Term(b1, w, k) else Ok(0.0))
  {
    if n > 0 {
      PrefixDelta(b1, b2, w, k, n - 1);
    }
  }

  /**
   * Attributes contribute independently: giving the board the k-th scored
   * attribute with value v changes its score by exactly that attribute's part.
   */
  lemma AttributeDelta(b: Record, k: nat, v: Value, w: Weights)
    requires k < Count && ScoredKeys <= w.Keys
    ensures BoardScore(b[Key(k) := v], w) == Plus(BoardScore(b - {Key(k)}, w), Part(k, v, w))
  {
    KeysAreScoredKeys();
    PrefixDelta(b[Key(k) := v], b - {Key(k)}, w, k, Count);
  }

  lemma {:induction false} PrefixSame(b1: Record, b2: Record, w: Weights, n: nat)
    requires n <= Count && ScoredKeys <= w.Keys
    requires forall i :: 0 <= i < Count ==> Term(b1, w, i) == Term(b2, w, i)
    ensures Prefix(b1, w, n) == Prefix(b2, w, n)
  {
    if n > 0 {
      PrefixSame(b1, b2, w, n - 1);
    }
  }

  /** Attributes that are not scored (`name`, `socket`, ...) do not change the score. */
  lemma UnscoredAttributeIgnored(b: Record, key: string, v: Value, w: Weights)
    requires ScoredKeys <= w.Keys && key !in ScoredKeys
    ensures BoardScore(b[key := v], w) == BoardScore(b, w)
  {
    KeysAreScoredKeys();
    assert forall i :: 0 <= i < Count ==> Term(b[key := v], w, i) == Term(b, w, i);
    PrefixSame(b[key := v], b, w, Count);
  }

  /** `wifi` and `bluetooth` add their full weight when truthy and nothing when falsy or absent. */
  lemma FeatureFlagAddsWeight(b: Record, key: string, v: Value, w: Weights)
    requires ScoredKeys <= w.Keys && (key == "wifi" || key == "bluetooth")
    ensures BoardScore(b[key := v], w) == Plus(BoardScore(b - {key}, w), Ok(if Truthy(v) then w[key] else 0.0))
    ensures !Truthy(v) ==> BoardScore(b[key := v], w) == BoardScore(b - {key}, w)
  {
    if key == "wifi" {
      assert Key(9) == key && Part(9, v, w) == FlagPart(v, w[key]);
      AttributeDelta(b, 9, v, w);
    } else {
      assert Key(10) == key && Part(10, v, w) == FlagPart(v, w[key]);
      AttributeDelta(b, 10, v, w);
    }
  }

  /** A non-positive price leaves the score as it is; a positive one costs `price * |w_price|`. */
  lemma PricePenaltyOnlyWhenPositive(b: Record, p: real, w: Weights)
    requires ScoredKeys <= w.Keys
    ensures p <= 0.0 ==> BoardScore(b["price" := Num(p)], w) == BoardScore(b - {"price"}, w)
    ensures p > 0.0 ==> BoardScore(b["price" := Num(p)], w) == Plus(BoardScore(b - {"price"}, w), Ok(-(p * Abs(w["price"]))))
  {
    assert Key(12) == "price" && Part(12, Num(p), w) == PricePenalty(Num(p), w["price"]);
    AttributeDelta(b, 12, Num(p), w);
  }

  /** A board without a chipset is scored, the chipset adding nothing; with one, its tier times the weight. */
  lemma ChipsetContribution(b: Record, name: string, w: Weights)
    requires ScoredKeys <= w.Keys
    ensures BoardScore(b["chipset" := Str(name)], w) == Plus(BoardScore(b - {"chipset"}, w), Ok(Weigh(ChipsetTier(name), w["chipset"])))
  {
    assert Key(0) == "chipset" && Part(0, Str(name), w) == Ok(Weigh(ChipsetTier(name), w["chipset"]));
    AttributeDelta(b, 0, Str(name), w);
  }

  /** The PCIe contribution of a slot list is the slot sum times its weight. */
  lemma PcieContribution(b: Record, slots: seq<Value>, w: Weights)
    requires ScoredKeys <= w.Keys
    ensures BoardScore(b["pcie_slots" := Lst(slots)], w)
         == Plus(BoardScore(b - {"pcie_slots"}, w), Scale(PcieSum(slots), w["pcie_slots"]))
  {
    assert Key(7) == "pcie_slots" && Part(7, Lst(slots), w) == Scale(PcieSum(slots), w["pcie_slots"]);
    AttributeDelta(b, 7, Lst(slots), w);
  }

  /** `'128GB'` scores as `128`, and `'6400MHz'` as `6400`. */
  lemma UnitSuffixesAreInvisible(b: Record, n: nat, w: Weights)
    requires ScoredKeys <= w.Keys
    ensures BoardScore(b["max_ram" := Str(NatText(n) + "GB")], w) == BoardScore(b["max_ram" := Num(n as real)], w)
    ensures BoardScore(b["ram_speed" := Str(NatText(n) + "MHz")], w) == BoardScore(b["ram_speed" := Num(n as real)], w)
  {
    UnitIntOfText(n, "GB");
    UnitIntOfText(n, "MHz");
    assert Key(2) == "max_ram" && Part(2, Str(NatText(n) + "GB"), w) == Part(2, Num(n as real), w);
    assert Key(3) == "ram_speed" && Part(3, Str(NatText(n) + "MHz"), w) == Part(3, Num(n as real), w);
    AttributeDelta(b, 2, Str(NatText(n) + "GB"), w);
    AttributeDelta(b, 2, Num(n as real), w);
    AttributeDelta(b, 3, Str(NatText(n) + "MHz"), w);
    AttributeDelta(b, 3, Num(n as real), w);
  }

  /** A speed written with its memory type in front, as `'DDR5-6400MHz'`, makes `int()` raise: the whole call fails. */
  lemma MemoryTypeInSpeedRaises(b: Record, w: Weights)
    requires ScoredKeys <= w.Keys
    ensures BoardScore(b["ram_speed" := Str("DDR5-6400MHz")], w) == Raise
  {
    LabelFirstRaises("DDR5-6400MHz", "MHz");
    assert Key(3) == "ram_speed" && Part(3, Str("DDR5-6400MHz"), w) == Raise;
    AttributeDelta(b, 3, Str("DDR5-6400MHz"), w);
  }

  /** The loop body up to `ram_speed`: the chipset tier and the memory attributes. */
  method ScoreChipsetAndMemory(b: Record, w: Weights) returns (r: Result<real>)
    requires ScoredKeys <= w.Keys
    ensures r == Prefix(b, w, 4)
  {
    RaiseSticksAt(b, w, 4);
    var score := 0.0;
    assert Prefix(b, w, 1) == Plus(Ok(score), Term(b, w, 0));
    if "chipset" in b {
      if !b["chipset"].Str? {
        return Raise;
      }
      var chipScore := ChipsetTier(b["chipset"].s);
      score := score + Weigh(chipScore, w["chipset"]);
    }
    assert Prefix(b, w, 2) == Plus(Ok(score), Term(b, w, 1));
    if "ram_slots" in b {
      var slots :- Arith(b["ram_slots"]);
      score := score + Weigh(slots, w["ram_slots"]);
    }
    assert Prefix(b, w, 3) == Plus(Ok(score), Term(b, w, 2));
    if "max_ram" in b {
      var maxRam :- UnitInt(b["max_ram"], "GB");
      score := score + Weigh(maxRam, w["max_ram"]);
    }
    assert Prefix(b, w, 4) == Plus(Ok(score), Term(b, w, 3));
    if "ram_speed" in b {
      var ramSpeed :- UnitInt(b["ram_speed"], "MHz");
      score := score + Weigh(ramSpeed, w["ram_speed"]) / 1000.0;
    }
    return Ok(score);
  }

  /** The loop body from `m2_slots` to `usb_ports`: the storage and USB port counts. */
  method ScoreStorageAndUsb(b: Record, w: Weights, score0: real) returns (r: Result<real>)
    requires ScoredKeys <= w.Keys && Prefix(b, w, 4) == Ok(score0)
    ensures r == Prefix(b, w, 7)
  {
    RaiseSticksAt(b, w, 7);
    var score := score0;
    assert Prefix(b, w, 5) == Plus(Ok(score), Term(b, w, 4));
    if "m2_slots" in b {
      var m2 :- Arith(b["m2_slots"]);
      score := score + Weigh(m2, w["m2_slots"]);
    }
    assert Prefix(b, w, 6) == Plus(Ok(score), Term(b, w, 5));
    if "sata_ports" in b {
      var sata :- Arith(b["sata_ports"]);
      score := score + Weigh(sata, w["sata_ports"]);
    }
    assert Prefix(b, w, 7) == Plus(Ok(score), Term(b, w, 6));
    if "usb_ports" in b {
      var usbCount :- Arith(FieldOr(b["usb_ports"], "total", Num(0.0)));
      score := score + Weigh(usbCount, w["usb_ports"]);
    }
    return Ok(score);
  }

  /** The loop body for `pcie_slots` and `vrm_quality`: the PCIe slot loop and the VRM phase count. */
  method ScoreExpansion(b: Record, w: Weights, score0: real) returns (r: Result<real>)
    requires ScoredKeys <= w.Keys && Prefix(b, w, 7) == Ok(score0)
    ensures r == Prefix(b, w, 9)
  {
    RaiseSticksAt(b, w, 9);
    var score := score0;
    assert Prefix(b, w, 8) == Plus(Ok(score), Term(b, w, 7));
    if "pcie_slots" in b {
      var slots :- Slots(b["pcie_slots"]);
      var pcieScore :- PcieScore(slots);
      score := score + Weigh(pcieScore, w["pcie_slots"]);
    }
    assert Prefix(b, w, 9) == Plus(Ok(score), Term(b, w, 8));
    if "vrm_quality" in b {
      var vrmPhases :- Arith(FieldOr(b["vrm_quality"], "phases", Num(0.0)));
      score := score + Weigh(vrmPhases, w["vrm_quality"]);
    }
    return Ok(score);
  }

  /** The loop body from `wifi` to `price`: the feature flags, the audio tier and the price penalty. */
  method ScoreFeatures(b: Record, w: Weights, score0: real) returns (r: Result<real>)
    requires ScoredKeys <= w.Keys && Prefix(b, w, 9) == Ok(score0)
    ensures r == BoardScore(b, w)
  {
    RaiseSticksAt(b, w, Count);
    var score := score0;
    assert Prefix(b, w, 10) == Plus(Ok(score), Term(b, w, 9));
    if "wifi" in b && Truthy(b["wifi"]) {
      score := score + w["wifi"];
    }
    assert Prefix(b, w, 11) == Plus(Ok(score), Term(b, w, 10));
    if "bluetooth" in b && Truthy(b["bluetooth"]) {
      score := score + w["bluetooth"];
    }
    assert Prefix(b, w, 12) == Plus(Ok(score), Term(b, w, 11));
    if "audio" in b {
      var audioScore :- AudioTier(FieldOr(b["audio"], "codec", Str("")));
      score := score + Weigh(audioScore, w["audio"]);
    }
    assert Prefix(b, w, 13) == Plus(Ok(score), Term(b, w, 12));
    if "price" in b {
      var price :- Arith(b["price"]);
      if price > 0.0 {
        score := score - Weigh(price, Abs(w["price"]));
      }
    }
    return Ok(score);
  }

  /** One board's score, accumulated attribute by attribute as the loop body does. */
  method ScoreBoard(b: Record, w: Weights) returns (r: Result<real>)
    requires ScoredKeys <= w.Keys
    ensures r == BoardScore(b, w)
  {
    RaiseSticksAt(b, w, Count);
    var score := ScoreChipsetAndMemory(b, w);
    if score.Raise? {
      return Raise;
    }
    score := ScoreStorageAndUsb(b, w, score.value);
    if score.Raise? {
      return Raise;
    }
    score := ScoreExpansion(b, w, score.value);
    if score.Raise? {
      return Raise;
    }
    r := ScoreFeatures(b, w, score.value);
  }

  /** `cpu_socket and mobo.get('socket') != cpu_socket`: the board is skipped. */
  predicate WrongSocket(b: Record, cpuSocket: Option<string>)
  {
    cpuSocket.Some? && cpuSocket.value != "" && GetOr(b, "socket", Null) != Str(cpuSocket.value)
  }

  function BoardVerdict(b: Record, cpuSocket: Option<string>, w: Weights): Verdict
    requires ScoredKeys <= w.Keys
  {
    if WrongSocket(b, cpuSocket) then Skip
    else match BoardScore(b, w)
      case Ok(s) => Scored(s)
      case Raise => Crash
  }

  function Verdicts(boards: seq<Record>, cpuSocket: Option<string>, w: Weights): (vs: seq<Verdict>)
    requires ScoredKeys <= w.Keys
    ensures |vs| == |boards|
  {
    seq(|boards|, i requires 0 <= i < |boards| => BoardVerdict(boards[i], cpuSocket, w))
  }

  /** `select_best_motherboard(motherboards_list, cpu_socket, weights)`. */
  method SelectBestMotherboard(boards: seq<Record>, cpuSocket: Option<string>, weights: Option<Weights>)
    returns (r: Outcome<Record>)
    requires ScoredKeys <= EffectiveWeights(weights).Keys
    ensures IsBestOf(boards, Verdicts(boards, cpuSocket, EffectiveWeights(weights)), r)
    ensures |boards| == 0 ==> r == Returned(None, Fin(0.0))
    ensures r.Returned? && r.best.Some? && cpuSocket.Some? && cpuSocket.value != "" ==>
              GetOr(r.best.value.item, "socket", Null) == Str(cpuSocket.value)
    ensures r.Returned? && r.best.Some? ==>
              BoardScore(r.best.value.item, EffectiveWeights(weights)) == Ok(r.score.value)
  {
    if |boards| == 0 {
      return Returned(None, Fin(0.0));
    }
    var w := EffectiveWeights(weights);
    ghost var vs := Verdicts(boards, cpuSocket, w);
    var best: Option<Pick<Record>> := None;
    var bestScore := NegInf;
    for i := 0 to |boards|
      invariant Running(boards, vs, i, best, bestScore)
    {
      var board := boards[i];
      if WrongSocket(board, cpuSocket) {
        RunningStep(boards, vs, i, best, bestScore);
        continue;
      }
      var score := ScoreBoard(board, w);
      if score.Raise? {
        assert vs[i].Crash?;
        return Raised;
      }
      RunningStep(boards, vs, i, best, bestScore);
      if Beats(score.value, bestScore) {
        bestScore := Fin(score.value);
        best := Some(Pick(i, board));
      }
    }
    return Returned(best, bestScore);
  }
}
