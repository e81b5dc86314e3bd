# Component choosers of CompelctPC, modelled in Dafny

CompelctPC's `ComponentChoiser` package picks one part per hardware
category for a PC build. Each chooser walks a list of candidate records
(Python dicts whose values are numbers, unit strings such as `'128GB'`,
flags, nested dicts or lists). It drops the candidates that fail a hard
constraint, gives each remaining candidate a weighted score, and returns
the first candidate with the highest score together with that score. An
empty list gives `(None, 0)`. This project models the four choosers:

- `select_best_motherboard`: socket filter; chipset and audio tier tables; memory, storage, USB, PCIe, VRM, wireless and price terms.
- `select_best_psu`: wattage filter; closeness to a recommended wattage; 80 PLUS and modularity tables; connector check; fan, noise, warranty and price terms.
- `select_best_gpu`: clock, memory, bandwidth, throughput, TDP and price terms, and a memory-type table.
- `select_best_cpu`: a loop over the weight table that turns gigahertz into megahertz, then the price penalty.

The model is organised as follows:

- `values.dfy` holds the record values and the Python arithmetic the choosers depend on. `bool` counts as a number, and any other non-number makes `*`, `-` or `>` raise.
- Every Python exception is an explicit `Raise` result. There is one exception: a weight table missing a key that a chooser indexes is excluded by a precondition (see "## Left out").
- `text.dfy` models `str.upper`, `in` on strings, `str.replace(token, '')`, `strip`, `int()` and `float()` on decimal text.
- `attributes.dfy` holds the normalisations the choosers share: a unit-suffixed string read as a number, the ordered substring tier tables, exact-key tables and the price penalty.
- `selection.dfy` holds the specification of the best-of loop. `IsBestOf` states the loop's result for every list of candidate verdicts. Each `SelectBest…` method writes the loop out and is proved against it.
- `sums.dfy` holds the sum over a dict's values.
- Each chooser keeps the source's imperative shape. A scoring method, or a chain of stage methods, accumulates the score attribute by attribute, in the source's order. A `for` loop keeps the running best.
- Each method is proved equal to a specification function: the score as a fold over the scored attributes, and the verdict per candidate. The properties are proved as lemmas about those functions.

Behaviour of the code as written that a reader might not expect:

- An attribute that cannot be parsed makes the whole call raise. It does not skip the attribute or the candidate.
- A power supply without a `connectors` entry always passes the connector check, even when a part draws power.
- `'80+ Titanium'` is absent from the certificate table, so it scores 0, like no certificate at all.
- A power supply's wattage, 80 PLUS and modularity terms are computed before the connector check. A value there that raises makes the call raise, even for a unit the connector check would then skip.
- The processor chooser counts `price` twice: once in the loop and once as the penalty.

## Model

| member | source | states |
|---|---|---|
| Text.UpperOfLower | ComponentChoiser/motherboard.py:44 | upper-casing a lower-cased name gives the upper-cased name |
| Text.ContainsIffOccurs | ComponentChoiser/motherboard.py:46-55 | substring `in` holds exactly when the needle occurs at some position of the text |
| Text.RemoveSuffixToken | ComponentChoiser/motherboard.py:65 | removing a unit from a text followed by that unit gives back the text, when the text never contains the unit's first character |
| Text.RemovePrefixToken | ComponentChoiser/motherboard.py:88 | removing `'PCIe '` from a version text led by it gives back the rest, under the same condition |
| Text.ParseIntNatText | ComponentChoiser/motherboard.py:65 | `int()` of a decimal numeral gives the number it spells |
| Text.ParseFloatNatText | ComponentChoiser/videocard.py:34 | `float()` of a decimal numeral gives the number it spells |
| Text.ParseFloatDecimalText | ComponentChoiser/motherboard.py:88 | `float()` of `whole.frac` gives its decimal value |
| Text.ParseInt | ComponentChoiser/motherboard.py:65 | `int()` of a string: surrounding whitespace, an optional sign, then decimal digits; any other text raises |
| Text.ParseFloat | ComponentChoiser/motherboard.py:88 | `float()` of a string: surrounding whitespace, an optional sign, then digits with at most one decimal point; any other text raises |
| Text.ParseIntRejectsPoint | ComponentChoiser/power_unit.py:83 | `int()` of a text with a decimal point raises |
| Attributes.WeightsOr | ComponentChoiser/motherboard.py:30 | a non-empty caller table is the one used; no table or an empty one gives the defaults |
| Attributes.UnitInt | ComponentChoiser/motherboard.py:65 | a str has its unit removed and is read by `int()`; any other value is used as a number, and raises when it is not one |
| Attributes.UnitFloat | ComponentChoiser/videocard.py:34 | the same, with the str read by `float()` |
| Attributes.HashedGet | ComponentChoiser/power_unit.py:57-58 | `table.get(v, default)` raises exactly for an unhashable dict or list, gives the table's entry for a listed str and the default otherwise |
| Attributes.UnitIntOfText | ComponentChoiser/motherboard.py:64-66 | an integer followed by its unit (`'128GB'`) reads as the same number as the bare integer |
| Attributes.UnitIntRefusesDecimal | ComponentChoiser/videocard.py:43-44 | a decimal followed by its unit (`'3.5GB'`) makes the integer read raise |
| Attributes.UnitFloatOfText | ComponentChoiser/videocard.py:33-35 | an integer followed by its unit (`'2235MHz'`) reads as the bare number when read as a float |
| Attributes.UnitFloatOfDecimal | ComponentChoiser/videocard.py:65-66 | a decimal followed by its unit (`'3.5TFLOPS'`) reads as that decimal |
| Attributes.LabelFirstRaises | ComponentChoiser/motherboard.py:68-70 | a text led by a letter that is not the unit's first, such as `'DDR5-6400MHz'`, makes the integer read and the float read raise |
| Attributes.FirstMatch | ComponentChoiser/motherboard.py:46-57 | an ordered substring table gives one of its listed tiers or the fallback |
| Attributes.FirstMatchFinds | ComponentChoiser/motherboard.py:46-55 | the first label that occurs decides the tier, whatever later labels also occur |
| Attributes.FirstMatchMisses | ComponentChoiser/motherboard.py:56-57 | a text containing no label gets the fallback tier |
| Attributes.PricePenalty | ComponentChoiser/motherboard.py:117-118 | the price term raises exactly when the price is not a number; otherwise it is never positive, is zero unless the price is positive, and is `-price·abs(weight)` for a positive price |
| Selection.RunningStep | ComponentChoiser/motherboard.py:120-122 | one `score > best_score` step extends the running best (first maximum, no crash so far) by one candidate |
| Selection.IsBestOfUnique | ComponentChoiser/motherboard.py:35-124 | the candidates' verdicts determine the chooser's outcome |
| Selection.WinnerIsScoredCandidate | ComponentChoiser/motherboard.py:120-124 | a returned winner is an input candidate that was scored, and no scored candidate has a higher score |
| Sums.SumOverRemove | ComponentChoiser/power_unit.py:14 | the sum over a set of keys is one key's value plus the sum over the others |
| Sums.SumOverAgree | ComponentChoiser/power_unit.py:14 | two dicts that agree on a key set have the same sum over it |
| Sums.SumValues | ComponentChoiser/power_unit.py:14 | `sum(components_power.values())` is the sum over all keys, whatever the iteration order |
| Motherboard.ChipsetTier | ComponentChoiser/motherboard.py:43-57 | the chipset tier lies between 5 and 10 |
| Motherboard.ChipsetTierFirstFamily | ComponentChoiser/motherboard.py:46-55 | the first family (X670E, Z790, B650, Z690, B660) found in the upper-cased name decides the tier |
| Motherboard.ChipsetTierUnknown | ComponentChoiser/motherboard.py:56-57 | a name containing none of the families gets tier 5 |
| Motherboard.ChipsetTierIgnoresCase | ComponentChoiser/motherboard.py:44 | a lower-case chipset name gets the same tier as the name |
| Motherboard.AudioTier | ComponentChoiser/motherboard.py:104-114 | the audio tier raises exactly when the codec is not a str, list or dict; otherwise it is 2, 1.5, 1 or 0.5 |
| Motherboard.AudioTierByTable | ComponentChoiser/motherboard.py:107-114 | a codec string's tier is that of the first codec (ALC1220, ALC1200, ALC897) it contains, or 0.5 |
| Motherboard.AudioWithoutCodec | ComponentChoiser/motherboard.py:106 | an audio dict without `codec` reads as `''` and scores 0.5 |
| Motherboard.WrongSocket | ComponentChoiser/motherboard.py:37-38 | a board is skipped exactly when a non-empty socket is requested and the board's `socket` differs |
| Motherboard.Slots | ComponentChoiser/motherboard.py:87 | iterating `pcie_slots` gives a list's elements, no slots for an empty str or dict, and raises for anything else |
| Motherboard.SlotValue | ComponentChoiser/motherboard.py:88-89 | a slot must be a dict with `version` and `x16`; its share is the parsed version, halved unless `x16` is truthy |
| Motherboard.SlotVersionOfText | ComponentChoiser/motherboard.py:88 | `'PCIe w.f'` reads as the version number w.f |
| Motherboard.SlotValueOfVersion | ComponentChoiser/motherboard.py:88-89 | a slot scores its version, halved unless `x16` is truthy |
| Motherboard.PcieSumAppend | ComponentChoiser/motherboard.py:86-89 | the PCIe sum of two slot lists joined is the sum of their sums, and raises when either does |
| Motherboard.PcieScore | ComponentChoiser/motherboard.py:86-89 | the slot loop computes the PCIe sum |
| Motherboard.Part | ComponentChoiser/motherboard.py:43-118 | the term each of the thirteen scored attributes adds when present, including the exceptions it raises |
| Motherboard.BoardScore | ComponentChoiser/motherboard.py:40-118 | a board's score is the sum of the terms of the attributes it has, in the source's order, and raises when one of them raises |
| Motherboard.PrefixRaises | ComponentChoiser/motherboard.py:43-118 | scoring raises exactly when some present attribute's term raises |
| Motherboard.AttributeDelta | ComponentChoiser/motherboard.py:43-118 | setting one scored attribute adds its term to the score of the board without it |
| Motherboard.UnscoredAttributeIgnored | ComponentChoiser/motherboard.py:43-118 | an attribute outside the thirteen scored keys never changes the score |
| Motherboard.FeatureFlagAddsWeight | ComponentChoiser/motherboard.py:98-102 | a truthy `wifi` or `bluetooth` adds exactly its weight, and a falsy one adds nothing |
| Motherboard.PricePenaltyOnlyWhenPositive | ComponentChoiser/motherboard.py:117-118 | a price of zero or less leaves the score; a positive price subtracts `price·abs(weight)` |
| Motherboard.ChipsetContribution | ComponentChoiser/motherboard.py:43-58 | a chipset adds its tier times the chipset weight |
| Motherboard.PcieContribution | ComponentChoiser/motherboard.py:84-90 | a slot list adds its PCIe sum times the PCIe weight |
| Motherboard.UnitSuffixesAreInvisible | ComponentChoiser/motherboard.py:64-71 | `'nGB'` as `max_ram` and `'nMHz'` as `ram_speed` score as the bare number n |
| Motherboard.MemoryTypeInSpeedRaises | ComponentChoiser/motherboard.py:68-71 | a `ram_speed` of `'DDR5-6400MHz'` makes the board's scoring raise |
| Motherboard.ScoreChipsetAndMemory | ComponentChoiser/motherboard.py:43-71 | the first four steps give the score so far |
| Motherboard.ScoreStorageAndUsb | ComponentChoiser/motherboard.py:73-82 | continuing a score so far through M.2, SATA and USB gives the score so far |
| Motherboard.ScoreExpansion | ComponentChoiser/motherboard.py:84-96 | continuing through PCIe and VRM gives the score so far |
| Motherboard.ScoreFeatures | ComponentChoiser/motherboard.py:98-118 | continuing through wifi, bluetooth, audio and price gives the board's score |
| Motherboard.ScoreBoard | ComponentChoiser/motherboard.py:40-118 | the loop body computes the board's score, or raises where the source raises |
| Motherboard.SelectBestMotherboard | ComponentChoiser/motherboard.py:1-124 | the result is the first board of maximal score among those with the right socket, or `(None, 0)` for no boards, or an exception when a board's scoring raises; a winner has the requested socket and its returned score |
| PowerUnit.RecommendedPower | ComponentChoiser/power_unit.py:17 | the recommended wattage is a multiple of 50, above 120 % of the total draw by at most 50 |
| PowerUnit.PowerScore | ComponentChoiser/power_unit.py:44-45 | the wattage score lies in [0, 100] and is 100 exactly at the recommended wattage |
| PowerUnit.PowerScoreCloser | ComponentChoiser/power_unit.py:44-45 | a wattage closer to the recommendation never scores lower |
| PowerUnit.BaseScore | ComponentChoiser/power_unit.py:44-67 | the wattage, 80 PLUS and modularity terms |
| PowerUnit.ConnectorsFit | ComponentChoiser/power_unit.py:70-77 | the connector check: no `connectors` entry passes; otherwise each part that draws power needs at least one of its 8-pin plugs, and, for a part that draws power, the check raises when the connectors are not a dict or that part's plug count is not a number |
| PowerUnit.Extras | ComponentChoiser/power_unit.py:82-97 | the fan, noise, warranty and price terms added to the base score |
| PowerUnit.PsuVerdict | ComponentChoiser/power_unit.py:36-101 | one pass of the loop body: raise, skip when underpowered, compute the base score, skip when the connectors do not fit, else score |
| PowerUnit.ScoredUnitSuffices | ComponentChoiser/power_unit.py:40-79 | a scored unit has a numeric wattage of at least the total draw, and passes the connector check |
| PowerUnit.UnderpoweredSkipped | ComponentChoiser/power_unit.py:40-41 | a unit whose wattage is below the total draw is skipped |
| PowerUnit.ConnectorsFitDict | ComponentChoiser/power_unit.py:70-77 | with a connector dict, the unit fits exactly when every drawing part (gpu, cpu) has at least one of its 8-pin plugs |
| PowerUnit.ConnectorsFitUnpowered | ComponentChoiser/power_unit.py:70-77 | when neither gpu nor cpu draws power, every unit fits |
| PowerUnit.ConnectorsNotDictRaise | ComponentChoiser/power_unit.py:73 | connectors that are not a dict raise once the gpu draws power |
| PowerUnit.ChecksAgree | ComponentChoiser/power_unit.py:40-79 | units differing in one attribute agree on every check and table term that does not read it |
| PowerUnit.ExtrasAgree | ComponentChoiser/power_unit.py:82-97 | units differing in one attribute agree on every additional term that does not read it |
| PowerUnit.VerdictFromTerms | ComponentChoiser/power_unit.py:36-101 | units that agree on wattage and on every term get the same verdict |
| PowerUnit.NoiseLowersScore | ComponentChoiser/power_unit.py:86-89 | a noise level n lowers a scored unit's score by `n·abs(weight)` |
| PowerUnit.PriceLowersScore | ComponentChoiser/power_unit.py:96-97 | a positive price lowers a scored unit's score by `price·abs(weight)`; any other price leaves it |
| PowerUnit.TitaniumScoresAsNone | ComponentChoiser/power_unit.py:49-58 | `'80+ Titanium'` gets the same verdict as no efficiency entry |
| PowerUnit.MissingModularIsNo | ComponentChoiser/power_unit.py:66-67 | a unit without `modular` gets the same verdict as one stating `'No'` |
| PowerUnit.ScoreBase | ComponentChoiser/power_unit.py:44-67 | the wattage, 80 PLUS and modularity steps compute the base score |
| PowerUnit.CheckConnectors | ComponentChoiser/power_unit.py:70-77 | the connector steps compute the connector check |
| PowerUnit.ScoreExtras | ComponentChoiser/power_unit.py:82-97 | the fan, noise, warranty and price steps compute the final score from the base |
| PowerUnit.AssessPsu | ComponentChoiser/power_unit.py:37-97 | the loop body skips, scores or raises exactly as the unit's verdict says |
| PowerUnit.SelectBestPsu | ComponentChoiser/power_unit.py:1-103 | the result is the first unit of maximal score among the sufficient, fitting ones, or `(None, 0)` for no units, or an exception; a winner's wattage covers the total draw |
| VideoCard.VramTier | ComponentChoiser/videocard.py:47-57 | the memory-type tier raises exactly for an unhashable value, lies in [5, 15], is 5 exactly for an unlisted type, and is 15/12/10/8/6 for HBM3/GDDR6X/GDDR6/HBM2/GDDR5 |
| VideoCard.Part | ComponentChoiser/videocard.py:33-74 | the term each of the eight scored attributes adds when present, including the exceptions it raises |
| VideoCard.CardScore | ComponentChoiser/videocard.py:30-74 | a card's score is the sum of the terms of the attributes it has, and raises when one of them raises |
| VideoCard.PrefixRaises | ComponentChoiser/videocard.py:33-74 | scoring raises exactly when some present attribute's term raises |
| VideoCard.AttributeDelta | ComponentChoiser/videocard.py:33-74 | setting one scored attribute adds its term to the score of the card without it |
| VideoCard.UnscoredAttributeIgnored | ComponentChoiser/videocard.py:33-74 | an attribute outside the eight scored keys never changes the score |
| VideoCard.SamePartSameScore | ComponentChoiser/videocard.py:33-74 | two values with the same term give the same score |
| VideoCard.UnitSuffixesAreInvisible | ComponentChoiser/videocard.py:33-71 | an integer with its unit (`MHz`, `GB`, `GB/s`, `TFLOPS`, `W`) scores as the bare integer |
| VideoCard.DecimalTflopsInvisible | ComponentChoiser/videocard.py:65-67 | `'w.fTFLOPS'` scores as the decimal w.f |
| VideoCard.VramTypeContribution | ComponentChoiser/videocard.py:47-57 | a memory type adds its tier times the weight |
| VideoCard.TdpAlwaysSubtracted | ComponentChoiser/videocard.py:69-71 | a TDP lowers the score by `tdp·abs(weight)`, whatever the weight's sign |
| VideoCard.PricePenaltyOnlyWhenPositive | ComponentChoiser/videocard.py:73-74 | a price of zero or less leaves the score; a positive price subtracts `price·abs(weight)` |
| VideoCard.ScoreClocksAndMemory | ComponentChoiser/videocard.py:33-57 | the clock and memory steps give the score so far |
| VideoCard.ScoreThroughputAndCost | ComponentChoiser/videocard.py:59-74 | continuing through bandwidth, TFLOPS, TDP and price gives the card's score |
| VideoCard.ScoreCard | ComponentChoiser/videocard.py:30-74 | the loop body computes the card's score, or raises |
| VideoCard.SelectBestGpu | ComponentChoiser/videocard.py:1-80 | the result is the first card of maximal score, or `(None, 0)` for no cards, or an exception; when every card scores there is a winner, and it carries its score |
| Processor.Megahertz | ComponentChoiser/processor.py:35-36 | a frequency in MHz: a str has `GHz` removed and is read by `float()`, and the number is multiplied by 1000 |
| Processor.WeightedSum | ComponentChoiser/processor.py:32-40 | the weight loop's sum: each weight key the processor has adds its normalised value times the weight, in any order; it raises when one does |
| Processor.CpuScore | ComponentChoiser/processor.py:29-44 | a processor's score: the weight loop's sum plus the price penalty |
| Processor.OnlySharedKeysCount | ComponentChoiser/processor.py:32-33 | restricting the weights to the processor's attributes does not change its score |
| Processor.WeightedSumRemove | ComponentChoiser/processor.py:32-40 | the weight loop's sum is one key's contribution plus the sum over the others, in any order |
| Processor.WeightedSumRaises | ComponentChoiser/processor.py:32-40 | the loop raises exactly when some weighted attribute's contribution raises |
| Processor.WeightedSumAgree | ComponentChoiser/processor.py:32-40 | equal contributions on every key give equal sums |
| Processor.WeightedSumShared | ComponentChoiser/processor.py:32-33 | keys the processor lacks contribute nothing |
| Processor.UnweightedAttributeIgnored | ComponentChoiser/processor.py:32-44 | an attribute without a weight, other than `price`, never changes the score |
| Processor.WeightedSumDelta | ComponentChoiser/processor.py:32-40 | setting one weighted attribute adds its contribution to the loop's sum |
| Processor.AttributeDelta | ComponentChoiser/processor.py:32-40 | setting a weighted attribute other than price adds its normalised value times its weight |
| Processor.WeightMonotone | ComponentChoiser/processor.py:37-40 | a larger value raises the score under a non-negative weight and lowers it under a non-positive one |
| Processor.PriceCountedTwice | ComponentChoiser/processor.py:32-44 | a positive price adds `price·w - price·abs(w)`: `-2·price·abs(w)` for a negative weight, nothing for a positive one |
| Processor.MissingPriceWeight | ComponentChoiser/processor.py:43-44 | without a price weight a numeric price changes nothing, and a non-numeric one raises |
| Processor.TextAttributeRaises | ComponentChoiser/processor.py:37-40 | a weighted attribute other than a frequency given as text (`'24MB'`) makes the scoring raise |
| Processor.FrequencyInGigahertz | ComponentChoiser/processor.py:35-36 | `'w.fGHz'` reads as the same megahertz value as the number w.f |
| Processor.ThreePointFiveGigahertz | ComponentChoiser/processor.py:36 | `'3.5GHz'` and `3.5` both read as 3500 MHz |
| Processor.ScoreCpu | ComponentChoiser/processor.py:29-44 | the loop over the weights and the price step compute the processor's score, whatever the order the weights come in |
| Processor.SelectBestCpu | ComponentChoiser/processor.py:1-50 | the result is the first processor of maximal score, or `(None, 0)` for no processors, or an exception; when every processor scores there is a winner, and it carries its score |

## Left out

- `dns.py` and the other modules of the repository are not part of this model. Neither are the example lists and the `print` calls below each chooser.
- Floating point: scores are exact reals, so IEEE-754 rounding, `inf` and `nan` are not modelled. `-float('inf')` is the separate value `NegInf`.
- Python's `int` and `float` are both reals. Weights are reals, so a weight given as an `int` is not modelled. With such a weight, `str * int` repeats the string. The sum `score + str` then raises, so the outcome is not changed.
- `str.upper` is modelled on ASCII letters only. Whitespace for `strip`, `int()` and `float()` is the ASCII whitespace Python recognises: tab to carriage return, `\x1c` to `\x1f`, and space. Non-ASCII whitespace such as `\x85` and `\xa0` is not modelled.
- `int()` and `float()` are modelled on plain decimal notation with an optional sign and surrounding whitespace. Underscores, exponents, `inf`, `nan` and non-ASCII digits are not modelled, and the model reads them as raising.
- A weight table lacking a key that the chooser indexes with `weights[key]` raises `KeyError` in the source. The model states this as a precondition (`ScoredKeys <= EffectiveWeights(weights).Keys`) on the motherboard, power-supply and graphics choosers rather than as a raise. The default tables meet it. The precondition is stronger than the source needs: it also rules out partial tables that a given call would never index. The source reads `weights['wifi']` and `weights['bluetooth']` only for a truthy flag, and `weights['price']` only for a positive price. It reads no weight at all when every board fails the socket test.
- Processor.ScoreCpu: the source iterates the weight dict in insertion order. The model picks the keys in any order and proves that the result does not depend on the order.
- Motherboard.Slots: a `pcie_slots` value that is a non-empty string or dict is modelled as raising. That is what the slot loop does with its characters or keys. The individual exception types are not distinguished.
- `cpu_socket` is modelled as an optional string. A truthy non-string socket is not modelled.
- `components_power` is modelled as a dict of reals. Non-numeric draws, which make `sum` raise, are not modelled.
- Exception types and messages are not distinguished: every exception is the single outcome `Raised`.
