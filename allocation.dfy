/** The water-allocation simulator behind `waterAllocation.runSimulation`
    (server/routers.ts): from the water available and a sampled demand it
    derives an allocation ratio, the allocated amount, the deficit, a priority
    tier and a recommendation list, and reports the volumes in 萬噸. */
module Allocation {

  /** Tons in one 萬噸 (wan-ton), the unit volumes are entered and reported in. */
  const TonsPerWan: real := 10000.0

  /** Priority tier of a plan. */
  datatype Priority = Normal | Restricted | Critical

  /** `parameters.totalWaterAvailable` as the request may carry it (the input
      schema accepts any JSON value under that key). */
  datatype Supplied =
    | Absent                            // key missing, null or undefined
    | Num(x: real)                      // a JSON number
    | Text(text: string, number: real)  // a string, with the number Number() reads from it

  /** JavaScript truthiness of the supplied value: 0 and "" are falsy, "0" is not. */
  predicate Truthy(p: Supplied) {
    match p
    case Absent => false
    case Num(x) => x != 0.0
    case Text(t, _) => t != ""
  }

  /** `Number(value)` for a value that is present. */
  function NumberOf(p: Supplied): real
    requires p != Absent
  {
    match p
    case Num(x) => x
    case Text(_, n) => n
  }

  /** The available water in tons: the supplied 萬噸 figure times 10,000 when
      it is truthy, otherwise a draw `sample` of Math.random() scaled into
      [30000, 80000). */
  function AvailableTons(p: Supplied, sample: real): (tons: real)
    requires 0.0 <= sample < 1.0
    ensures Truthy(p) ==> tons / TonsPerWan == NumberOf(p)
    ensures !Truthy(p) ==> 30000.0 <= tons < 80000.0
  {
    if Truthy(p) then NumberOf(p) * TonsPerWan else sample * 50000.0 + 30000.0
  }

  /** The demand in tons: a draw `sample` of Math.random() scaled into [25000, 85000). */
  function DemandTons(sample: real): (tons: real)
    requires 0.0 <= sample < 1.0
    ensures 25000.0 <= tons < 85000.0
  {
    sample * 60000.0 + 25000.0
  }

  function Min(a: real, b: real): real { if a <= b then a else b }

  function Max(a: real, b: real): real { if a >= b then a else b }

  /** `allocationRatio = min(available / demand, 1)`: never above 1, exactly 1
      when supply covers demand, otherwise the fraction of demand available. */
  function AllocationRatio(available: real, demand: real): (ratio: real)
    requires demand > 0.0
    ensures ratio <= 1.0
    ensures ratio == 1.0 <==> available >= demand
    ensures ratio < 1.0 ==> ratio * demand == available
    ensures available >= 0.0 ==> 0.0 <= ratio
  {
    var q := available / demand;
    assert q * demand == available;
    assert available >= demand <==> q >= 1.0;
    Min(q, 1.0)
  }

  /** `allocatedAmount = available × ratio`. This is the product the source
      computes, not min(available, demand): below full supply it is
      available² / demand. */
  function AllocatedAmount(available: real, demand: real): (amount: real)
    requires demand > 0.0
    ensures available >= demand ==> amount == available
    ensures available < demand ==> amount * demand == available * available
    ensures available >= 0.0 ==> 0.0 <= amount <= available
  {
    var ratio := AllocationRatio(available, demand);
    var amount := available * ratio;
    assert available < demand ==> amount * demand == available * (ratio * demand);
    assert available >= 0.0 ==> amount <= available * 1.0;
    amount
  }

  /** `deficit = max(0, demand - available)`: never negative, zero exactly when
      supply covers demand, otherwise the shortfall. */
  function Deficit(available: real, demand: real): (deficit: real)
    ensures deficit >= 0.0
    ensures deficit == 0.0 <==> available >= demand
    ensures deficit > 0.0 ==> available + deficit == demand
  {
    Max(0.0, demand - available)
  }

  /** Priority as the if/else chain on the ratio chooses it, stated band by band. */
  function PriorityOf(ratio: real): (p: Priority)
    ensures p == Critical <==> ratio < 0.7
    ensures p == Restricted <==> 0.7 <= ratio < 0.9
    ensures p == Normal <==> 0.9 <= ratio
  {
    if ratio < 0.7 then Critical
    else if ratio < 0.9 then Restricted
    else Normal
  }

  /** Advice when less than 80% of demand can be met. */
  const ConservationAdvice: seq<string> := ["建議啟動節水措施", "調整灌溉時程", "優先供應高經濟作物"]

  /** Advice otherwise. */
  const NormalAdvice: seq<string> := ["維持正常配水", "監控水源變化"]

  function Recommendations(ratio: real): (advice: seq<string>)
    ensures advice == ConservationAdvice <==> ratio < 0.8
    ensures advice == NormalAdvice <==> ratio >= 0.8
  {
    if ratio < 0.8 then ConservationAdvice else NormalAdvice
  }

  /** The `allocationPlan` object, volumes in 萬噸. */
  datatype AllocationPlan = AllocationPlan(
    priority: Priority,
    allocationRatio: real,
    totalAvailable: real,
    totalDemand: real,
    allocatedAmount: real,
    deficit: real)

  /** The `results` payload of a stored simulation, volumes in 萬噸. */
  datatype SimulationResults = SimulationResults(
    allocatedWater: real,
    shortfall: real,
    recommendations: seq<string>)

  /** What runSimulation stores and returns. */
  datatype Simulation = Simulation(
    districtId: int,
    scenarioName: string,
    totalWaterAvailable: real,
    totalWaterDemand: real,
    allocationEfficiency: real,
    allocationPlan: AllocationPlan,
    results: SimulationResults,
    status: string)

  /** The plan for `available` and `demand` tons. */
  function Plan(available: real, demand: real): (plan: AllocationPlan)
    requires demand > 0.0
    ensures plan.totalAvailable * TonsPerWan == available
    ensures plan.totalDemand * TonsPerWan == demand
    ensures plan.allocationRatio == AllocationRatio(available, demand)
    ensures plan.priority == PriorityOf(plan.allocationRatio)
    ensures plan.allocatedAmount * TonsPerWan == AllocatedAmount(available, demand)
    ensures plan.deficit * TonsPerWan == Deficit(available, demand)
  {
    var ratio := AllocationRatio(available, demand);
    AllocationPlan(
      PriorityOf(ratio),
      ratio,
      available / TonsPerWan,
      demand / TonsPerWan,
      AllocatedAmount(available, demand) / TonsPerWan,
      Deficit(available, demand) / TonsPerWan)
  }

  /** runSimulation, with the two Math.random() draws as parameters:
      `availableSample` is used only when no truthy amount is supplied. */
  function RunSimulation(districtId: int, scenarioName: string, supplied: Supplied,
                         availableSample: real, demandSample: real): (s: Simulation)
    requires 0.0 <= availableSample < 1.0 && 0.0 <= demandSample < 1.0
    ensures s.districtId == districtId && s.scenarioName == scenarioName
    ensures s.status == "completed"
    ensures 2.5 <= s.totalWaterDemand < 8.5
    ensures Truthy(supplied) ==> s.totalWaterAvailable == NumberOf(supplied)
    ensures !Truthy(supplied) ==> 3.0 <= s.totalWaterAvailable < 8.0
    ensures s.allocationPlan.totalAvailable == s.totalWaterAvailable
    ensures s.allocationPlan.totalDemand == s.totalWaterDemand
    ensures s.allocationEfficiency == s.allocationPlan.allocationRatio
    ensures s.results.allocatedWater == s.allocationPlan.allocatedAmount
    ensures s.results.shortfall == s.allocationPlan.deficit
    ensures s.results.recommendations == Recommendations(s.allocationPlan.allocationRatio)
    ensures s.allocationPlan == Plan(AvailableTons(supplied, availableSample), DemandTons(demandSample))
  {
    var available := AvailableTons(supplied, availableSample);
    var demand := DemandTons(demandSample);
    var plan := Plan(available, demand);
    Simulation(
      districtId,
      scenarioName,
      available / TonsPerWan,
      demand / TonsPerWan,
      plan.allocationRatio,
      plan,
      SimulationResults(plan.allocatedAmount, plan.deficit, Recommendations(plan.allocationRatio)),
      "completed")
  }

  // ---------------------------------------------------------------------
  // Properties of the plan

  /** The reported plan obeys the same laws in 萬噸 as in tons: the ratio is
      min(totalAvailable / totalDemand, 1), the deficit max(0, totalDemand -
      totalAvailable) and the allocated amount totalAvailable × ratio. */
  lemma PlanInWan(available: real, demand: real)
    requires demand > 0.0
    ensures var plan := Plan(available, demand);
      && plan.totalDemand > 0.0
      && plan.allocationRatio == AllocationRatio(plan.totalAvailable, plan.totalDemand)
      && plan.deficit == Deficit(plan.totalAvailable, plan.totalDemand)
      && plan.allocatedAmount == plan.totalAvailable * plan.allocationRatio
  {
    var plan := Plan(available, demand);
    var a, d := plan.totalAvailable, plan.totalDemand;
    assert a * TonsPerWan == available && d * TonsPerWan == demand;
    assert (a / d) * d == a;
    assert (available / demand) * demand == available;
    assert a / d == available / demand by {
      calc {
        (a / d) * demand;
        (a / d) * d * TonsPerWan;
        a * TonsPerWan;
        available;
      }
    }
    assert available >= demand <==> a >= d;
  }

  /** Under full supply every ton is allocated and nothing is short; below it
      the ratio is the fraction supplied and the shortfall is what is missing. */
  lemma FullSupplyIff(available: real, demand: real)
    requires demand > 0.0
    ensures var plan := Plan(available, demand);
      && (plan.allocationRatio == 1.0 <==> plan.deficit == 0.0)
      && (plan.deficit == 0.0 <==> available >= demand)
      && (available >= demand ==> plan.allocatedAmount == plan.totalAvailable)
  {
    var plan := Plan(available, demand);
    assert plan.deficit * TonsPerWan == Deficit(available, demand);
    assert plan.allocatedAmount * TonsPerWan == AllocatedAmount(available, demand);
  }

  /** With supply short of demand the allocation is strictly less than what is
      available: the plan hands out available² / demand, not the whole supply. */
  lemma ShortSupplyAllocatesLessThanAvailable(available: real, demand: real)
    requires 0.0 < available < demand
    ensures AllocatedAmount(available, demand) < available
  {
    var amount := AllocatedAmount(available, demand);
    assert amount * demand == available * available;
    assert available * available < available * demand;
  }

  /** Allocated plus deficit never falls below min(available, demand), and meets
      it only when available equals demand (for available ≥ 0). */
  lemma AllocatedPlusDeficit(available: real, demand: real)
    requires demand > 0.0 && available >= 0.0
    ensures AllocatedAmount(available, demand) + Deficit(available, demand) >= Min(available, demand)
    ensures AllocatedAmount(available, demand) + Deficit(available, demand) == Min(available, demand)
            <==> available == demand
  {
    if available < demand {
      var ratio := AllocationRatio(available, demand);
      assert ratio * demand == available;
      assert AllocatedAmount(available, demand) == available * ratio;
      assert Deficit(available, demand) == demand - available;
      ShortfallExceedsUnallocated(available, demand, ratio);
    }
  }

  /** With r · d = a and 0 <= a < d, the allocated a · r plus the shortfall
      d - a exceeds a, because a - a · r = (d - a) · r < d - a. */
  lemma ShortfallExceedsUnallocated(a: real, d: real, r: real)
    requires 0.0 <= a < d && r * d == a && r < 1.0
    ensures a * r + (d - a) > a
  {
    ScaledBelow(a, d, r);
  }

  /** Scaling a positive gap by a factor below 1 makes it smaller. */
  lemma ScaledBelow(u: real, v: real, r: real)
    requires u < v && r < 1.0
    ensures (v - u) * r < v - u
  {
    var g := v - u;
    MulLess(r, 1.0, g);
  }

  lemma MulLess(u: real, v: real, k: real)
    requires u < v && k > 0.0
    ensures u * k < v * k
  {
    var g := v - u;
    assert g * k > 0.0;
  }

  /** Every critical plan gets the conservation list, every normal plan the
      normal list; a restricted plan gets either, split at 0.8. */
  lemma AdviceFollowsPriority(ratio: real)
    ensures PriorityOf(ratio) == Critical ==> Recommendations(ratio) == ConservationAdvice
    ensures PriorityOf(ratio) == Normal ==> Recommendations(ratio) == NormalAdvice
    ensures PriorityOf(ratio) == Restricted ==>
      (Recommendations(ratio) == ConservationAdvice <==> ratio < 0.8)
    ensures |Recommendations(ratio)| == if ratio < 0.8 then 3 else 2
  {
  }

  /** The priority never improves as the ratio drops. */
  lemma PriorityMonotone(r1: real, r2: real)
    requires r1 <= r2
    ensures PriorityOf(r2) == Critical ==> PriorityOf(r1) == Critical
    ensures PriorityOf(r1) == Normal ==> PriorityOf(r2) == Normal
  {
  }

  /** A truthy supplied amount v is converted to tons exactly once: the run
      works on v × 10,000 tons and reports v 萬噸 back. */
  lemma SuppliedAmountRoundTrip(districtId: int, scenarioName: string, supplied: Supplied,
                                availableSample: real, demandSample: real)
    requires 0.0 <= availableSample < 1.0 && 0.0 <= demandSample < 1.0
    requires Truthy(supplied)
    ensures AvailableTons(supplied, availableSample) == NumberOf(supplied) * 10000.0
    ensures RunSimulation(districtId, scenarioName, supplied, availableSample, demandSample)
              .allocationPlan.totalAvailable == NumberOf(supplied)
  {
  }

  /** A non-empty string that reads as 0 is truthy: nothing is available, the
      ratio is 0 and the plan is critical with the full demand as deficit. */
  lemma ZeroStringMeansNoWater(demandSample: real)
    requires 0.0 <= demandSample < 1.0
    ensures var s := RunSimulation(1, "zero", Text("0", 0.0), 0.0, demandSample);
      && s.allocationPlan.allocationRatio == 0.0
      && s.allocationPlan.priority == Critical
      && s.allocationPlan.deficit == s.totalWaterDemand
  {
    var demand := DemandTons(demandSample);
    assert AvailableTons(Text("0", 0.0), 0.0) == 0.0;
    assert AllocationRatio(0.0, demand) == 0.0;
    assert Deficit(0.0, demand) == demand;
  }

  // ---------------------------------------------------------------------
  // Boundary scenarios

  /** A = 7000, D = 10000 gives ratio 0.7, which is restricted, not critical. */
  lemma RatioSevenTenthsIsRestricted()
    ensures Plan(7000.0, 10000.0).allocationRatio == 0.7
    ensures Plan(7000.0, 10000.0).priority == Restricted
  {
  }

  /** A = 9000, D = 10000 gives ratio 0.9, which is normal. */
  lemma RatioNineTenthsIsNormal()
    ensures Plan(9000.0, 10000.0).allocationRatio == 0.9
    ensures Plan(9000.0, 10000.0).priority == Normal
  {
  }

  /** 5000 萬噸 supplied becomes 50,000,000 tons. */
  lemma FiveThousandWan(sample: real)
    requires 0.0 <= sample < 1.0
    ensures AvailableTons(Num(5000.0), sample) == 50000000.0
  {
  }
}
