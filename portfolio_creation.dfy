/**
 * The portfolio-creation wizard: a three-step controller (settings, asset
 * selection, review) over a fixed asset catalog. The allocation list
 * operations (preset, equal-share toggle, clamped edit) are functions on
 * sequences; the wizard's state and its handlers are the class Wizard.
 */
module PortfolioCreation {
  import opened Wrappers
  import JsString
  import Sequences

  datatype RiskLevel = Low | Medium | High | Custom
  datatype Frequency = Daily | Weekly | Monthly | Quarterly

  datatype Settings = Settings(
    name: string,
    initialInvestment: real,
    riskLevel: RiskLevel,
    rebalancingFrequency: Frequency,
    targetReturn: real,
    maxDrawdown: real)

  /** A catalog entry (its image URL is presentation only and is not modelled). */
  datatype Asset = Asset(
    id: string, symbol: string, name: string,
    price: real, change24h: real, marketCap: int, volume: int)

  /** One selected asset and its share of the portfolio in whole percent. */
  datatype Allocation = Allocation(assetId: string, percentage: int)

  /** The four metrics of the preview, chosen by risk level. */
  datatype RiskMetrics = RiskMetrics(
    sharpeRatio: real, volatility: real, maxDrawdown: real, expectedReturn: real)

  /**
   * The deterministic part of the preview: the allocation breakdown (label
   * and percentage per selected asset), the risk metrics and the initial
   * investment. The projected and benchmark series are random and left out.
   */
  datatype Preview = Preview(
    labels: seq<string>, data: seq<int>, riskMetrics: RiskMetrics, initialInvestment: real)

  /** The asset catalog loaded when the wizard starts. */
  const Catalog: seq<Asset> := [
    Asset("bitcoin", "BTC", "Bitcoin", 66724.12, 2.3, 1312047928374, 35729483927),
    Asset("ethereum", "ETH", "Ethereum", 3422.87, 1.5, 411237483924, 15729483922),
    Asset("tether", "USDT", "Tether", 1.00, 0.1, 92837483924, 75729483922),
    Asset("usdc", "USDC", "USD Coin", 1.00, 0.05, 32837483924, 25729483922),
    Asset("bnb", "BNB", "BNB", 563.27, -1.2, 86437483924, 5729483922),
    Asset("solana", "SOL", "Solana", 182.34, 3.7, 77837483924, 6729483922),
    Asset("cardano", "ADA", "Cardano", 0.46, -0.8, 16437483924, 1729483922),
    Asset("avalanche", "AVAX", "Avalanche", 36.29, 1.9, 13237483924, 1529483922),
    Asset("polkadot", "DOT", "Polkadot", 7.42, -0.5, 9437483924, 729483922),
    Asset("polygon", "MATIC", "Polygon", 0.61, 2.1, 5837483924, 529483922)
  ]

  /** The settings the wizard starts with. */
  const DefaultSettings := Settings("", 1000.0, Medium, Monthly, 10.0, 20.0)

  /** `id` names an asset of the catalog. */
  predicate InCatalog(id: string) {
    exists k :: 0 <= k < |Catalog| && Catalog[k].id == id
  }

  /** No asset id occurs twice. */
  predicate DistinctIds(sel: seq<Allocation>) {
    forall i, j :: 0 <= i < j < |sel| ==> sel[i].assetId != sel[j].assetId
  }

  /** Every entry references a catalog asset. */
  predicate AllInCatalog(sel: seq<Allocation>) {
    forall i :: 0 <= i < |sel| ==> InCatalog(sel[i].assetId)
  }

  /** Every percentage lies in 0..100. */
  predicate PercentagesInRange(sel: seq<Allocation>) {
    forall i :: 0 <= i < |sel| ==> 0 <= sel[i].percentage <= 100
  }

  /** The shape every reachable selection has. */
  predicate WellFormed(sel: seq<Allocation>) {
    DistinctIds(sel) && AllInCatalog(sel) && PercentagesInRange(sel)
  }

  /** `selectedAssets.some(item => item.assetId === id)`. */
  predicate IsSelected(sel: seq<Allocation>, id: string) {
    exists i :: 0 <= i < |sel| && sel[i].assetId == id
  }

  /** No entry holds a negative percentage. */
  predicate NoNegativeShare(sel: seq<Allocation>) {
    forall i :: 0 <= i < |sel| ==> sel[i].percentage >= 0
  }

  /** `totalAllocation`: the sum of the percentages. */
  function Total(sel: seq<Allocation>): (t: int)
    ensures NoNegativeShare(sel) ==> t >= 0
  {
    if sel == [] then 0
    else
      assert NoNegativeShare(sel) ==> NoNegativeShare(sel[1..]) by {
        assert forall i :: 0 <= i < |sel| - 1 ==> sel[1..][i] == sel[i + 1];
      }
      sel[0].percentage + Total(sel[1..])
  }

  lemma {:induction false} TotalAppend(a: seq<Allocation>, b: seq<Allocation>)
    ensures Total(a + b) == Total(a) + Total(b)
    decreases |a|
  {
    if a == [] {
      assert a + b == b;
    } else {
      assert (a + b)[0] == a[0];
      assert (a + b)[1..] == a[1..] + b;
      TotalAppend(a[1..], b);
    }
  }

  /** The total of a well-formed selection is between 0 and 100 per entry. */
  lemma {:induction false} TotalBounds(sel: seq<Allocation>)
    requires PercentagesInRange(sel)
    ensures 0 <= Total(sel) <= 100 * |sel|
    decreases |sel|
  {
    if sel != [] {
      TotalBounds(sel[1..]);
    }
  }

  // ---------------------------------------------------------------------
  // Risk presets

  /** The low-risk preset: mostly stablecoins. */
  const LowPreset: seq<Allocation> :=
    [Allocation("tether", 50), Allocation("usdc", 20), Allocation("bitcoin", 20), Allocation("ethereum", 10)]

  /** The medium-risk preset. */
  const MediumPreset: seq<Allocation> :=
    [Allocation("tether", 30), Allocation("bitcoin", 30), Allocation("ethereum", 25), Allocation("solana", 15)]

  /** The high-risk preset: spread over volatile and smaller assets. */
  const HighPreset: seq<Allocation> :=
    [Allocation("bitcoin", 30), Allocation("ethereum", 30), Allocation("solana", 20),
     Allocation("polygon", 10), Allocation("avalanche", 10)]

  lemma LowPresetFacts()
    ensures WellFormed(LowPreset) && Total(LowPreset) == 100
  {
    assert Catalog[2].id == "tether";
    assert Catalog[3].id == "usdc";
    assert Catalog[0].id == "bitcoin";
    assert Catalog[1].id == "ethereum";
  }

  lemma MediumPresetFacts()
    ensures WellFormed(MediumPreset) && Total(MediumPreset) == 100
  {
    assert Catalog[2].id == "tether";
    assert Catalog[0].id == "bitcoin";
    assert Catalog[1].id == "ethereum";
    assert Catalog[5].id == "solana";
  }

  lemma HighPresetFacts()
    ensures WellFormed(HighPreset) && Total(HighPreset) == 100
  {
    HighPresetTotal();
    assert Catalog[0].id == "bitcoin";
    assert Catalog[1].id == "ethereum";
    assert Catalog[5].id == "solana";
    assert Catalog[9].id == "polygon";
    assert Catalog[7].id == "avalanche";
  }

  /** The high preset's shares add up to 100. */
  lemma HighPresetTotal()
    ensures Total(HighPreset) == 100
  {
    var p := HighPreset;
    assert Total(p[4..]) == 10 by { assert p[4..][1..] == []; }
    assert p[3..][1..] == p[4..] && p[2..][1..] == p[3..] && p[1..][1..] == p[2..];
  }

  /**
   * The fixed allocation list of a preset risk level; `custom` has none.
   * Each list is non-empty, sums to exactly 100 and references distinct
   * catalog assets.
   */
  function PresetAllocations(level: RiskLevel): (r: Option<seq<Allocation>>)
    ensures r.None? <==> level == Custom
    ensures r.Some? ==> WellFormed(r.value) && Total(r.value) == 100 && |r.value| > 0
  {
    match level
    case Low => LowPresetFacts(); Some(LowPreset)
    case Medium => MediumPresetFacts(); Some(MediumPreset)
    case High => HighPresetFacts(); Some(HighPreset)
    case Custom => None
  }

  // ---------------------------------------------------------------------
  // Asset toggle

  /** `selectedAssets.filter(item => item.assetId !== id)`. */
  function Deselect(sel: seq<Allocation>, id: string): (r: seq<Allocation>)
    ensures |r| <= |sel|
    ensures !IsSelected(r, id)
  {
    if sel == [] then []
    else (if sel[0].assetId == id then [] else [sel[0]]) + Deselect(sel[1..], id)
  }

  /** The filter keeps exactly the entries with another id. */
  lemma {:induction false} DeselectMembers(sel: seq<Allocation>, id: string)
    ensures forall a :: a in Deselect(sel, id) <==> a in sel && a.assetId != id
    decreases |sel|
  {
    if sel != [] {
      DeselectMembers(sel[1..], id);
      assert sel == [sel[0]] + sel[1..];
    }
  }

  /** Removing an id that is not selected changes nothing. */
  lemma {:induction false} DeselectAbsent(sel: seq<Allocation>, id: string)
    requires !IsSelected(sel, id)
    ensures Deselect(sel, id) == sel
    decreases |sel|
  {
    if sel != [] {
      assert !IsSelected(sel[1..], id) by {
        forall i | 0 <= i < |sel[1..]| ensures sel[1..][i].assetId != id {
          assert sel[1..][i] == sel[i + 1];
        }
      }
      DeselectAbsent(sel[1..], id);
      assert sel == [sel[0]] + sel[1..];
    }
  }

  /**
   * With distinct ids, deselecting the asset at position k deletes exactly
   * that entry: the others keep their order and their percentages.
   */
  lemma {:induction false} DeselectIsDeletion(sel: seq<Allocation>, id: string, k: int)
    requires DistinctIds(sel) && 0 <= k < |sel| && sel[k].assetId == id
    ensures Deselect(sel, id) == sel[..k] + sel[k + 1..]
    decreases |sel|
  {
    var tail := sel[1..];
    assert Deselect(sel, id) == (if sel[0].assetId == id then [] else [sel[0]]) + Deselect(tail, id);
    if k == 0 {
      assert !IsSelected(tail, id) by {
        forall i | 0 <= i < |tail| ensures tail[i].assetId != id {
          assert tail[i] == sel[i + 1];
        }
      }
      DeselectAbsent(tail, id);
      assert sel[..0] + sel[1..] == tail;
    } else {
      assert sel[0].assetId != id;
      assert DistinctIds(tail) by {
        forall i, j | 0 <= i < j < |tail| ensures tail[i].assetId != tail[j].assetId {
          assert tail[i] == sel[i + 1] && tail[j] == sel[j + 1];
        }
      }
      assert tail[k - 1] == sel[k];
      DeselectIsDeletion(tail, id, k - 1);
      assert tail[..k - 1] == sel[1..k];
      assert tail[k..] == sel[k + 1..];
      assert sel[..k] == [sel[0]] + sel[1..k];
    }
  }

  /** The equal share of a selection growing to n + 1 assets: `Math.floor(100 / (n + 1))`. */
  function EqualShare(n: nat): (p: int)
    ensures 0 <= p <= 100
    ensures (n + 1) * p <= 100 < (n + 1) * (p + 1)
  {
    100 / (n + 1)
  }

  /** `sel.map(asset => ({...asset, percentage: p}))`. */
  function WithPercentage(sel: seq<Allocation>, p: int): (r: seq<Allocation>)
    ensures |r| == |sel|
    ensures forall i :: 0 <= i < |sel| ==> r[i].assetId == sel[i].assetId && r[i].percentage == p
  {
    if sel == [] then [] else [Allocation(sel[0].assetId, p)] + WithPercentage(sel[1..], p)
  }

  /** A list of n entries at p percent totals n * p. */
  lemma {:induction false} TotalWithPercentage(sel: seq<Allocation>, p: int)
    ensures Total(WithPercentage(sel, p)) == |sel| * p
    decreases |sel|
  {
    if sel != [] {
      var w := WithPercentage(sel, p);
      TotalWithPercentage(sel[1..], p);
      WithPercentageTail(sel, p);
      assert Total(w) == p + Total(w[1..]);
      MulSucc(|sel| - 1, p);
    }
  }

  /** One more entry at p percent adds p. */
  lemma MulSucc(n: int, p: int)
    ensures (n + 1) * p == n * p + p
  {
  }

  /** Dropping the first entry commutes with setting every percentage. */
  lemma WithPercentageTail(sel: seq<Allocation>, p: int)
    requires sel != []
    ensures WithPercentage(sel, p)[1..] == WithPercentage(sel[1..], p)
  {
  }

  /** The add branch of `handleAssetSelect`: every entry gets the equal share and `id` is appended at it. */
  function SelectWithEqualShare(sel: seq<Allocation>, id: string): (r: seq<Allocation>)
    ensures |r| == |sel| + 1 && r[|sel|] == Allocation(id, EqualShare(|sel|))
    ensures forall i :: 0 <= i < |r| ==> r[i].percentage == EqualShare(|sel|)
    ensures forall i :: 0 <= i < |sel| ==> r[i].assetId == sel[i].assetId
  {
    WithPercentage(sel, EqualShare(|sel|)) + [Allocation(id, EqualShare(|sel|))]
  }

  /** The list `handleAssetSelect(id)` leaves: the filter when selected, the equal-share append otherwise. */
  function Toggled(sel: seq<Allocation>, id: string): (r: seq<Allocation>)
    ensures IsSelected(r, id) <==> !IsSelected(sel, id)
    ensures forall other :: other != id ==> (IsSelected(r, other) <==> IsSelected(sel, other))
  {
    if IsSelected(sel, id) then
      DeselectMembers(sel, id);
      Deselect(sel, id)
    else
      var r := SelectWithEqualShare(sel, id);
      assert IsSelected(r, id) by { assert r[|sel|].assetId == id; }
      r
  }

  /** Removing an asset keeps a well-formed selection well-formed. */
  lemma DeselectKeepsWellFormed(sel: seq<Allocation>, id: string)
    requires WellFormed(sel) && IsSelected(sel, id)
    ensures WellFormed(Deselect(sel, id))
  {
    var r := Deselect(sel, id);
    var k :| 0 <= k < |sel| && sel[k].assetId == id;
    DeselectIsDeletion(sel, id, k);
    DeletionKeepsDistinct(sel, k);
    DeselectMembers(sel, id);
    forall i | 0 <= i < |r| ensures InCatalog(r[i].assetId) && 0 <= r[i].percentage <= 100 {
      assert r[i] in sel;
    }
  }

  /** Deleting one position keeps the ids distinct. */
  lemma DeletionKeepsDistinct(sel: seq<Allocation>, k: int)
    requires DistinctIds(sel) && 0 <= k < |sel|
    ensures DistinctIds(sel[..k] + sel[k + 1..])
  {
    var r := sel[..k] + sel[k + 1..];
    forall i | 0 <= i < |r| ensures r[i] == sel[Skip(i, k)] {
    }
    forall i, j | 0 <= i < j < |r| ensures r[i].assetId != r[j].assetId {
      assert Skip(i, k) < Skip(j, k);
    }
  }

  /** The index in the original list of entry i after deleting position k. */
  function Skip(i: int, k: int): int {
    if i < k then i else i + 1
  }

  /** Adding an unselected catalog asset keeps a well-formed selection well-formed. */
  lemma SelectKeepsWellFormed(sel: seq<Allocation>, id: string)
    requires WellFormed(sel) && InCatalog(id) && !IsSelected(sel, id)
    ensures WellFormed(SelectWithEqualShare(sel, id))
  {
    var r := SelectWithEqualShare(sel, id);
    assert forall i :: 0 <= i < |sel| ==> r[i].assetId == sel[i].assetId;
  }

  /** A toggle keeps a well-formed selection well-formed (for a catalog id). */
  lemma ToggleKeepsWellFormed(sel: seq<Allocation>, id: string)
    requires WellFormed(sel) && InCatalog(id)
    ensures WellFormed(Toggled(sel, id))
  {
    if IsSelected(sel, id) {
      DeselectKeepsWellFormed(sel, id);
    } else {
      SelectKeepsWellFormed(sel, id);
    }
  }

  /** After adding an asset the total is n+1 equal shares, at most 100, and exactly 100 iff n+1 divides 100. */
  lemma SelectTotal(sel: seq<Allocation>, id: string)
    ensures Total(SelectWithEqualShare(sel, id)) == (|sel| + 1) * EqualShare(|sel|)
    ensures Total(SelectWithEqualShare(sel, id)) <= 100
    ensures Total(SelectWithEqualShare(sel, id)) == 100 <==> 100 % (|sel| + 1) == 0
  {
    var p := EqualShare(|sel|);
    TotalAppend(WithPercentage(sel, p), [Allocation(id, p)]);
    TotalWithPercentage(sel, p);
    assert Total([Allocation(id, p)]) == p;
    MulSucc(|sel|, p);
    EqualShareExact(|sel| + 1);
  }

  /** n shares of `100 / n` make exactly 100 iff n divides 100. */
  lemma EqualShareExact(n: int)
    requires n >= 1
    ensures n * (100 / n) <= 100
    ensures n * (100 / n) == 100 <==> 100 % n == 0
  {
    assert 100 == n * (100 / n) + 100 % n;
  }

  /** Removing the asset at position k lowers the total by exactly its percentage. */
  lemma DeselectTotal(sel: seq<Allocation>, id: string, k: int)
    requires DistinctIds(sel) && 0 <= k < |sel| && sel[k].assetId == id
    ensures Total(Deselect(sel, id)) == Total(sel) - sel[k].percentage
  {
    DeselectIsDeletion(sel, id, k);
    assert sel == sel[..k] + [sel[k]] + sel[k + 1..];
    TotalAppend(sel[..k] + [sel[k]], sel[k + 1..]);
    TotalAppend(sel[..k], [sel[k]]);
    TotalAppend(sel[..k], sel[k + 1..]);
  }

  /** From nothing, toggling A then B gives 50/50. */
  lemma EqualShareTwo(a: string, b: string)
    requires a != b
    ensures Toggled(Toggled([], a), b) == [Allocation(a, 50), Allocation(b, 50)]
  {
    var one := Toggled([], a);
    assert one == [Allocation(a, 100)];
    assert !IsSelected(one, b);
    var two := Toggled(one, b);
    assert two == SelectWithEqualShare(one, b);
    assert two[0] == Allocation(a, 50) && two[1] == Allocation(b, 50);
  }

  /** A third asset C after A and B gives 33/33/33, totalling 99 rather than 100. */
  lemma EqualShareThree(a: string, b: string, c: string)
    requires a != b && b != c && a != c
    ensures Toggled(Toggled(Toggled([], a), b), c)
            == [Allocation(a, 33), Allocation(b, 33), Allocation(c, 33)]
    ensures Total(Toggled(Toggled(Toggled([], a), b), c)) == 99
  {
    EqualShareTwo(a, b);
    var two := [Allocation(a, 50), Allocation(b, 50)];
    assert !IsSelected(two, c);
    var three := Toggled(two, c);
    assert three == SelectWithEqualShare(two, c);
    assert three[0] == Allocation(a, 33) && three[1] == Allocation(b, 33) && three[2] == Allocation(c, 33);
    SelectTotal(two, c);
  }

  // ---------------------------------------------------------------------
  // Manual allocation edit

  /** `Math.max(0, Math.min(100, v))`. */
  function Clamp(v: int): (r: int)
    ensures 0 <= r <= 100
    ensures 0 <= v <= 100 ==> r == v
    ensures v < 0 ==> r == 0
    ensures v > 100 ==> r == 100
  {
    if v < 0 then 0 else if v > 100 then 100 else v
  }

  /** `handleAllocationChange`: the entries whose id is `id` get the clamped value, the rest are kept. */
  function SetPercentage(sel: seq<Allocation>, id: string, v: int): (r: seq<Allocation>)
    ensures |r| == |sel|
    ensures forall i :: 0 <= i < |sel| ==> r[i].assetId == sel[i].assetId
    ensures forall i :: 0 <= i < |sel| && sel[i].assetId != id ==> r[i] == sel[i]
    ensures forall i :: 0 <= i < |sel| && sel[i].assetId == id ==> r[i].percentage == Clamp(v)
  {
    if sel == [] then []
    else [if sel[0].assetId == id then Allocation(id, Clamp(v)) else sel[0]]
         + SetPercentage(sel[1..], id, v)
  }

  /** The edit keeps a well-formed selection well-formed. */
  lemma SetPercentageKeepsWellFormed(sel: seq<Allocation>, id: string, v: int)
    requires WellFormed(sel)
    ensures WellFormed(SetPercentage(sel, id, v))
  {
  }

  /** With distinct ids, editing the entry at position k changes the total by the new value minus the old one. */
  lemma {:induction false} SetPercentageTotal(sel: seq<Allocation>, id: string, v: int, k: int)
    requires DistinctIds(sel) && 0 <= k < |sel| && sel[k].assetId == id
    ensures Total(SetPercentage(sel, id, v)) == Total(sel) - sel[k].percentage + Clamp(v)
    decreases |sel|
  {
    var r := SetPercentage(sel, id, v);
    assert r[1..] == SetPercentage(sel[1..], id, v);
    if k == 0 {
      assert !IsSelected(sel[1..], id) by {
        forall i | 0 <= i < |sel[1..]| ensures sel[1..][i].assetId != id {
          assert sel[1..][i] == sel[i + 1];
        }
      }
      SetPercentageAbsent(sel[1..], id, v);
    } else {
      SetPercentageTotal(sel[1..], id, v, k - 1);
    }
  }

  /** Editing an id that is not selected changes nothing. */
  lemma {:induction false} SetPercentageAbsent(sel: seq<Allocation>, id: string, v: int)
    requires !IsSelected(sel, id)
    ensures SetPercentage(sel, id, v) == sel
  {
    var r := SetPercentage(sel, id, v);
    assert forall i :: 0 <= i < |sel| ==> r[i] == sel[i];
  }

  // ---------------------------------------------------------------------
  // Validation

  /**
   * The error object: a message per form field that failed its check
   * (`name`, `initialInvestment`, `assets`, `allocation`), the absent keys
   * being None.
   */
  datatype Errors = Errors(
    name: Option<string>, initialInvestment: Option<string>,
    assets: Option<string>, allocation: Option<string>)
  {
    /** `Object.keys(errors).length === 0`. */
    predicate IsEmpty() {
      name.None? && initialInvestment.None? && assets.None? && allocation.None?
    }
  }

  const NoErrors := Errors(None, None, None, None)

  const NameRequired := "Portfolio name is required"
  const InvestmentPositive := "Initial investment must be greater than 0"
  const AssetsRequired := "Please select at least one asset"

  /** The allocation error, with the current total interpolated. */
  function AllocationMessage(total: int): string {
    "Total allocation must equal 100% (currently " + JsString.NumberToString(total) + "%)"
  }

  /** The error object `validateStep` builds for a step, one entry per failed check. */
  function StepErrors(step: int, settings: Settings, sel: seq<Allocation>): (e: Errors)
    ensures step != 1 ==> e.name.None? && e.initialInvestment.None?
    ensures step != 2 ==> e.assets.None? && e.allocation.None?
    ensures step != 1 && step != 2 ==> e.IsEmpty()
  {
    var e1 := if step == 1 && JsString.Trim(settings.name) == "" then NoErrors.(name := Some(NameRequired)) else NoErrors;
    var e2 := if step == 1 && settings.initialInvestment <= 0.0 then e1.(initialInvestment := Some(InvestmentPositive)) else e1;
    var e3 := if step == 2 && |sel| == 0 then e2.(assets := Some(AssetsRequired)) else e2;
    if step == 2 && Total(sel) != 100 then e3.(allocation := Some(AllocationMessage(Total(sel)))) else e3
  }

  /** Step 1 passes iff the trimmed name is non-empty and the investment is positive; each failure has its message. */
  lemma Step1Errors(settings: Settings, sel: seq<Allocation>)
    ensures var e := StepErrors(1, settings, sel);
      && e.assets == None && e.allocation == None
      && e.name == (if JsString.IsBlank(settings.name) then Some(NameRequired) else None)
      && e.initialInvestment == (if settings.initialInvestment <= 0.0 then Some(InvestmentPositive) else None)
      && (e.IsEmpty() <==> !JsString.IsBlank(settings.name) && settings.initialInvestment > 0.0)
  {
    JsString.TrimEmptyIff(settings.name);
  }

  /** Step 2 passes iff some asset is selected and the total is exactly 100; the message carries the total. */
  lemma Step2Errors(settings: Settings, sel: seq<Allocation>)
    ensures var e := StepErrors(2, settings, sel);
      && e.name == None && e.initialInvestment == None
      && e.assets == (if |sel| == 0 then Some(AssetsRequired) else None)
      && e.allocation == (if Total(sel) != 100 then Some(AllocationMessage(Total(sel))) else None)
      && (e.IsEmpty() <==> |sel| > 0 && Total(sel) == 100)
  {
  }

  /** The review step has no checks. */
  lemma Step3Errors(settings: Settings, sel: seq<Allocation>)
    ensures StepErrors(3, settings, sel) == NoErrors
  {
  }

  /** One asset at 50% fails with "(currently 50%)"; at 100% it passes. */
  lemma AllocationGateExample(settings: Settings, id: string)
    ensures StepErrors(2, settings, [Allocation(id, 50)])
            == NoErrors.(allocation := Some("Total allocation must equal 100% (currently 50%)"))
    ensures StepErrors(2, settings, [Allocation(id, 100)]).IsEmpty()
  {
    assert Total([Allocation(id, 50)]) == 50;
    assert Total([Allocation(id, 100)]) == 100;
    assert JsString.DigitChar(5) == '5' && JsString.DigitChar(0) == '0';
    assert JsString.NatToString(5) == "5";
    assert JsString.NatToString(50) == "5" + "0";
    assert JsString.NumberToString(50) == "50";
    assert AllocationMessage(50) == "Total allocation must equal 100% (currently 50%)";
  }

  // ---------------------------------------------------------------------
  // Preview

  /** The risk metrics for a level: the low and medium tiers, and one tier for high and custom alike. */
  function MetricsFor(level: RiskLevel, targetReturn: real): (m: RiskMetrics)
    ensures m.expectedReturn == targetReturn
    ensures level == Low ==> m == RiskMetrics(1.2, 5.0, 8.0, targetReturn)
    ensures level == Medium ==> m == RiskMetrics(1.8, 12.0, 15.0, targetReturn)
    ensures level == High || level == Custom ==> m == RiskMetrics(2.4, 25.0, 30.0, targetReturn)
  {
    RiskMetrics(
      if level == Low then 1.2 else if level == Medium then 1.8 else 2.4,
      if level == Low then 5.0 else if level == Medium then 12.0 else 25.0,
      if level == Low then 8.0 else if level == Medium then 15.0 else 30.0,
      targetReturn)
  }

  /** A rank of the levels (custom shares the high tier). */
  function TierRank(level: RiskLevel): int {
    match level
    case Low => 0
    case Medium => 1
    case _ => 2
  }

  /** A riskier tier has a higher Sharpe ratio, volatility and drawdown. */
  lemma MetricsMonotone(a: RiskLevel, b: RiskLevel, ra: real, rb: real)
    requires TierRank(a) <= TierRank(b)
    ensures MetricsFor(a, ra).sharpeRatio <= MetricsFor(b, rb).sharpeRatio
    ensures MetricsFor(a, ra).volatility <= MetricsFor(b, rb).volatility
    ensures MetricsFor(a, ra).maxDrawdown <= MetricsFor(b, rb).maxDrawdown
  {
  }

  /** The catalog name of `id`, or `id` itself when the catalog has no such asset. */
  function AssetLabel(assets: seq<Asset>, id: string): (r: string)
    ensures (exists k :: 0 <= k < |assets| && assets[k].id == id) ==>
      exists k :: 0 <= k < |assets| && assets[k].id == id && r == assets[k].name
        && forall j :: 0 <= j < k ==> assets[j].id != id
    ensures (forall k :: 0 <= k < |assets| ==> assets[k].id != id) ==> r == id
  {
    if assets == [] then id
    else if assets[0].id == id then assets[0].name
    else
      var r := AssetLabel(assets[1..], id);
      assert forall k :: 1 <= k < |assets| ==> assets[k] == assets[1..][k - 1];
      r
  }

  /** The allocation breakdown's labels, one per selected asset, in order. */
  function BreakdownLabels(sel: seq<Allocation>): (r: seq<string>)
    ensures |r| == |sel|
    ensures forall i :: 0 <= i < |sel| ==> r[i] == AssetLabel(Catalog, sel[i].assetId)
  {
    if sel == [] then []
    else
      var rest := BreakdownLabels(sel[1..]);
      assert forall i :: 1 <= i < |sel| ==> sel[i] == sel[1..][i - 1];
      [AssetLabel(Catalog, sel[0].assetId)] + rest
  }

  /** The allocation breakdown's data, one percentage per selected asset, in order. */
  function BreakdownData(sel: seq<Allocation>): (r: seq<int>)
    ensures |r| == |sel|
    ensures forall i :: 0 <= i < |sel| ==> r[i] == sel[i].percentage
  {
    if sel == [] then [] else [sel[0].percentage] + BreakdownData(sel[1..])
  }

  /** The deterministic preview of the current settings and selection. */
  function PreviewOf(settings: Settings, sel: seq<Allocation>): Preview {
    Preview(BreakdownLabels(sel), BreakdownData(sel),
            MetricsFor(settings.riskLevel, settings.targetReturn), settings.initialInvestment)
  }

  /** The preview's metrics ignore the selection; its breakdown is the selection. */
  lemma PreviewFacts(settings: Settings, sel: seq<Allocation>, other: seq<Allocation>)
    ensures PreviewOf(settings, sel).riskMetrics == PreviewOf(settings, other).riskMetrics
    ensures PreviewOf(settings, sel).riskMetrics.expectedReturn == settings.targetReturn
    ensures |PreviewOf(settings, sel).labels| == |sel| && |PreviewOf(settings, sel).data| == |sel|
    ensures Total(sel) == 100 ==> SumInts(PreviewOf(settings, sel).data) == 100
  {
    BreakdownDataSum(sel);
  }

  function SumInts(s: seq<int>): int {
    if s == [] then 0 else s[0] + SumInts(s[1..])
  }

  lemma {:induction false} BreakdownDataSum(sel: seq<Allocation>)
    ensures SumInts(BreakdownData(sel)) == Total(sel)
    decreases |sel|
  {
    if sel != [] {
      BreakdownDataSum(sel[1..]);
      assert BreakdownData(sel)[1..] == BreakdownData(sel[1..]);
    }
  }

  // ---------------------------------------------------------------------
  // Search

  /** The search predicate: the lower-cased term occurs in the lower-cased name or symbol. */
  predicate Matches(a: Asset, term: string) {
    JsString.Includes(JsString.ToLowerCase(a.name), JsString.ToLowerCase(term))
    || JsString.Includes(JsString.ToLowerCase(a.symbol), JsString.ToLowerCase(term))
  }

  /** `availableAssets.filter(...)`: the matching assets in catalog order. */
  function FilterAssets(assets: seq<Asset>, term: string): (r: seq<Asset>)
    ensures |r| <= |assets|
    ensures forall a :: a in r <==> a in assets && Matches(a, term)
  {
    if assets == [] then []
    else (if Matches(assets[0], term) then [assets[0]] else []) + FilterAssets(assets[1..], term)
  }

  /** An empty search keeps every asset, in order. */
  lemma {:induction false} FilterEmptyTerm(assets: seq<Asset>)
    ensures FilterAssets(assets, "") == assets
    decreases |assets|
  {
    if assets != [] {
      JsString.IncludesEmpty(JsString.ToLowerCase(assets[0].name));
      FilterEmptyTerm(assets[1..]);
      assert assets == [assets[0]] + assets[1..];
    }
  }

  /** The filter keeps catalog order. */
  lemma {:induction false} FilterKeepsOrder(assets: seq<Asset>, term: string)
    ensures Sequences.IsSubsequence(FilterAssets(assets, term), assets)
    decreases |assets|
  {
    if assets != [] {
      FilterKeepsOrder(assets[1..], term);
      var rest := FilterAssets(assets[1..], term);
      var r := FilterAssets(assets, term);
      if Matches(assets[0], term) {
        assert r == [assets[0]] + rest;
        assert r != [] && r[0] == assets[0] && r[1..] == rest;
      } else {
        assert r == rest;
      }
    }
  }

  // ---------------------------------------------------------------------
  // The wizard

  /** A change made through `handleSettingsChange`: the field and its already-parsed value. */
  datatype SettingChange =
    | SetName(name: string)
    | SetInitialInvestment(amount: real)
    | SetRiskLevel(level: RiskLevel)
    | SetRebalancing(frequency: Frequency)
    | SetTargetReturn(percent: real)
    | SetMaxDrawdown(percent: real)

  /** The settings after one change. */
  function ApplyChange(s: Settings, c: SettingChange): Settings {
    match c
    case SetName(n) => s.(name := n)
    case SetInitialInvestment(v) => s.(initialInvestment := v)
    case SetRiskLevel(l) => s.(riskLevel := l)
    case SetRebalancing(f) => s.(rebalancingFrequency := f)
    case SetTargetReturn(v) => s.(targetReturn := v)
    case SetMaxDrawdown(v) => s.(maxDrawdown := v)
  }

  class Wizard {
    var currentStep: int
    var settings: Settings
    var selectedAssets: seq<Allocation>
    var searchTerm: string
    var validationErrors: Errors
    var previewData: Option<Preview>

    /** The step is 1..3, the review step has a preview, and the selection is well-formed. */
    ghost predicate Valid()
      reads this
    {
      1 <= currentStep <= 3
      && (currentStep == 3 ==> previewData.Some?)
      && WellFormed(selectedAssets)
    }

    /** The wizard as it is mounted: step 1, default settings, the medium preset selected. */
    constructor ()
      ensures Valid()
      ensures currentStep == 1 && settings == DefaultSettings
      ensures selectedAssets == PresetAllocations(Medium).value
      ensures searchTerm == "" && validationErrors == NoErrors && previewData == None
    {
      currentStep := 1;
      settings := DefaultSettings;
      searchTerm := "";
      validationErrors := NoErrors;
      previewData := None;
      selectedAssets := [];
      new;
      ApplyRiskPreset(Medium);
    }

    /** `setSelectedAssetsBasedOnRisk`: a preset replaces the whole list; `custom` leaves it. */
    method ApplyRiskPreset(level: RiskLevel)
      requires 1 <= currentStep <= 3 && (currentStep == 3 ==> previewData.Some?)
      requires level == Custom ==> WellFormed(selectedAssets)
      modifies this
      ensures Valid()
      ensures selectedAssets == if level == Custom then old(selectedAssets) else PresetAllocations(level).value
      ensures currentStep == old(currentStep) && settings == old(settings) && searchTerm == old(searchTerm)
      ensures validationErrors == old(validationErrors) && previewData == old(previewData)
    {
      if level == Custom {
        return;
      }
      var defaults: seq<Allocation> := [];
      if level == Low {
        defaults := PresetAllocations(Low).value;
      } else if level == Medium {
        defaults := PresetAllocations(Medium).value;
      } else if level == High {
        defaults := PresetAllocations(High).value;
      }
      selectedAssets := defaults;
    }

    /** `handleSettingsChange`: a preset risk level also applies its allocations. */
    method ChangeSetting(c: SettingChange)
      requires Valid()
      modifies this
      ensures Valid()
      ensures settings == ApplyChange(old(settings), c)
      ensures selectedAssets ==
        if c.SetRiskLevel? && c.level != Custom then PresetAllocations(c.level).value else old(selectedAssets)
      ensures currentStep == old(currentStep) && searchTerm == old(searchTerm)
      ensures validationErrors == old(validationErrors) && previewData == old(previewData)
    {
      if c.SetRiskLevel? && (c.level == Low || c.level == Medium || c.level == High) {
        ApplyRiskPreset(c.level);
      }
      settings := ApplyChange(settings, c);
    }

    /** `handleAssetSelect`: remove a selected asset, or add a new one at the equal share; the level becomes `custom`. */
    method ToggleAsset(id: string)
      requires Valid() && InCatalog(id)
      modifies this
      ensures Valid()
      ensures old(IsSelected(selectedAssets, id)) ==> selectedAssets == Deselect(old(selectedAssets), id)
      ensures !old(IsSelected(selectedAssets, id)) ==> selectedAssets == SelectWithEqualShare(old(selectedAssets), id)
      ensures settings == old(settings).(riskLevel := Custom)
      ensures currentStep == old(currentStep) && searchTerm == old(searchTerm)
      ensures validationErrors == old(validationErrors) && previewData == old(previewData)
    {
      ToggleKeepsWellFormed(selectedAssets, id);
      if IsSelected(selectedAssets, id) {
        selectedAssets := Deselect(selectedAssets, id);
      } else {
        var share := EqualShare(|selectedAssets|);
        selectedAssets := WithPercentage(selectedAssets, share) + [Allocation(id, share)];
      }
      settings := settings.(riskLevel := Custom);
    }

    /** `handleAllocationChange`: only the entry with that id changes, to the clamped value. */
    method ChangeAllocation(id: string, v: int)
      requires Valid()
      modifies this
      ensures Valid()
      ensures selectedAssets == SetPercentage(old(selectedAssets), id, v)
      ensures settings == old(settings) && currentStep == old(currentStep) && searchTerm == old(searchTerm)
      ensures validationErrors == old(validationErrors) && previewData == old(previewData)
    {
      var percentage := Clamp(v);
      SetPercentageKeepsWellFormed(selectedAssets, id, v);
      selectedAssets := SetPercentage(selectedAssets, id, percentage);
    }

    /** The search box. */
    method SetSearchTerm(term: string)
      requires Valid()
      modifies this
      ensures Valid() && searchTerm == term
      ensures settings == old(settings) && selectedAssets == old(selectedAssets) && currentStep == old(currentStep)
      ensures validationErrors == old(validationErrors) && previewData == old(previewData)
    {
      searchTerm := term;
    }

    /** `filteredAssets`: the catalog assets the search term matches, in catalog order. */
    function FilteredAssets(): (r: seq<Asset>)
      reads this
      ensures forall a :: a in r <==> a in Catalog && Matches(a, searchTerm)
    {
      FilterAssets(Catalog, searchTerm)
    }

    /** `totalAllocation`. */
    function TotalAllocation(): (t: int)
      reads this
      requires Valid()
      ensures 0 <= t <= 100 * |selectedAssets|
    {
      TotalBounds(selectedAssets);
      Total(selectedAssets)
    }

    /** `validateStep`: fills the error object key by key and passes iff it stays empty. */
    method ValidateStep() returns (ok: bool)
      requires Valid()
      modifies this
      ensures Valid()
      ensures validationErrors == StepErrors(old(currentStep), old(settings), old(selectedAssets))
      ensures ok <==> validationErrors.IsEmpty()
      ensures settings == old(settings) && selectedAssets == old(selectedAssets) && currentStep == old(currentStep)
      ensures searchTerm == old(searchTerm) && previewData == old(previewData)
    {
      var errors := NoErrors;
      if currentStep == 1 {
        if JsString.Trim(settings.name) == "" {
          errors := errors.(name := Some(NameRequired));
        }
        if settings.initialInvestment <= 0.0 {
          errors := errors.(initialInvestment := Some(InvestmentPositive));
        }
      }
      if currentStep == 2 {
        if |selectedAssets| == 0 {
          errors := errors.(assets := Some(AssetsRequired));
        }
        var total := Total(selectedAssets);
        if total != 100 {
          errors := errors.(allocation := Some(AllocationMessage(total)));
        }
      }
      validationErrors := errors;
      ok := errors.IsEmpty();
    }

    /** `generatePortfolioPreview` with its delay taken as instantaneous: the preview, then step 3. */
    method GeneratePortfolioPreview()
      requires WellFormed(selectedAssets)
      modifies this
      ensures Valid()
      ensures previewData == Some(PreviewOf(old(settings), old(selectedAssets))) && currentStep == 3
      ensures settings == old(settings) && selectedAssets == old(selectedAssets)
      ensures searchTerm == old(searchTerm) && validationErrors == old(validationErrors)
    {
      var labels := BreakdownLabels(selectedAssets);
      var data := BreakdownData(selectedAssets);
      var metrics := MetricsFor(settings.riskLevel, settings.targetReturn);
      previewData := Some(Preview(labels, data, metrics, settings.initialInvestment));
      currentStep := 3;
    }

    /** `goToNextStep` (the Next button is shown only before step 3). */
    method GoToNextStep()
      requires Valid() && currentStep < 3
      modifies this
      ensures Valid()
      ensures validationErrors == StepErrors(old(currentStep), old(settings), old(selectedAssets))
      ensures !validationErrors.IsEmpty() ==> currentStep == old(currentStep) && previewData == old(previewData)
      ensures validationErrors.IsEmpty() && old(currentStep) == 1 ==>
        currentStep == 2 && previewData == old(previewData)
      ensures validationErrors.IsEmpty() && old(currentStep) == 2 ==>
        currentStep == 3 && previewData == Some(PreviewOf(old(settings), old(selectedAssets)))
      ensures settings == old(settings) && selectedAssets == old(selectedAssets) && searchTerm == old(searchTerm)
    {
      var ok := ValidateStep();
      if ok {
        if currentStep == 2 {
          GeneratePortfolioPreview();
        } else {
          currentStep := currentStep + 1;
        }
      }
    }

    /** `goToPreviousStep` (the Back button is shown only after step 1). */
    method GoToPreviousStep()
      requires Valid() && currentStep > 1
      modifies this
      ensures Valid()
      ensures currentStep == old(currentStep) - 1
      ensures settings == old(settings) && selectedAssets == old(selectedAssets) && searchTerm == old(searchTerm)
      ensures validationErrors == old(validationErrors) && previewData == old(previewData)
    {
      currentStep := currentStep - 1;
    }
  }

  /** Back from asset selection, then forward again: settings and allocations survive unchanged. */
  method BackAndForth(w: Wizard)
    requires w.Valid() && w.currentStep == 2
    requires StepErrors(1, w.settings, w.selectedAssets).IsEmpty()
    modifies w
    ensures w.Valid() && w.currentStep == 2
    ensures w.settings == old(w.settings) && w.selectedAssets == old(w.selectedAssets)
  {
    w.GoToPreviousStep();
    w.GoToNextStep();
  }
}
