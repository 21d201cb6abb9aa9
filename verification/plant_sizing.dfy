/** The hourly hydrogen storage and dispatch simulation of the plant-sizing
    page, and the sizing metrics (cylinders, capital cost, days without
    supply) derived from its totals.

    Quantities are exact reals: the floating-point rounding of the original
    is not modelled. */
module PlantSizing {

  /** Stack size (NM3/hour) the hourly base profile was recorded against. */
  const BaseStackCapacity: real := 350.0
  /** Fixed total storage capacity (NM3); venting is only considered above it. */
  const StorageCapacity: real := 100000.0

  /** The assumptions the user edits on the page. */
  datatype Assumptions = Assumptions(
    installedStack: real,      // NM3/hour
    cylinderCapacity: real,    // NM3 per cylinder
    cylinderCost: real,        // currency units per cylinder
    stockHighThreshold: real,  // stock above which the high rate is dispatched
    supplyRateHigh: real,      // NM3/hour
    supplyRateLow: real)       // NM3/hour

  /** Inputs that describe a physical plant: nothing negative. */
  predicate NonNegativeInputs(profile: seq<real>, a: Assumptions)
  {
    && a.installedStack >= 0.0
    && a.supplyRateHigh >= 0.0
    && a.supplyRateLow >= 0.0
    && forall i :: 0 <= i < |profile| ==> profile[i] >= 0.0
  }

  // ---------------------------------------------------------------------
  // One hour
  // ---------------------------------------------------------------------

  /** The base profile value rescaled to the installed stack. */
  function Generation(value: real, a: Assumptions): real
  {
    value / BaseStackCapacity * a.installedStack
  }

  /** The tiered dispatch rule, checked in order: high rate above the high
      threshold, else the low rate above the low rate itself, else nothing. */
  function TierSupply(preSupply: real, a: Assumptions): real
  {
    if preSupply > a.stockHighThreshold then a.supplyRateHigh
    else if preSupply > a.supplyRateLow then a.supplyRateLow
    else 0.0
  }

  /** Never dispatch more than is in stock: the smaller of the two. */
  function Clamp(requested: real, preSupply: real): (r: real)
    ensures r <= requested && r <= preSupply
    ensures r == requested || r == preSupply
  {
    if requested > preSupply then preSupply else requested
  }

  /** Venting, under its compound condition: the stock after supply is above
      the storage capacity AND the hour's generation is above the high rate;
      then all generation that was not supplied is vented. */
  function Vent(afterSupply: real, generation: real, supply: real, a: Assumptions): real
  {
    if afterSupply > StorageCapacity && generation > a.supplyRateHigh
    then generation - supply else 0.0
  }

  /** The state the loop carries from hour to hour. */
  datatype Totals = Totals(
    stock: real,
    generated: real,
    supplied: real,
    vented: real,
    zeroSupplyHours: nat,
    peakStock: real)

  const Initial: Totals := Totals(0.0, 0.0, 0.0, 0.0, 0, 0.0)

  /** The loop body: one hour of dispatch from the carried stock folded into
      the totals. An hour counts as a zero-supply hour when the tier rate,
      before clamping, is not positive. */
  function Advance(t: Totals, value: real, a: Assumptions): Totals
  {
    var generation := Generation(value, a);
    var preSupply := t.stock + generation;
    var requested := TierSupply(preSupply, a);
    var supply := Clamp(requested, preSupply);
    var vent := Vent(preSupply - supply, generation, supply, a);
    var stockNext := preSupply - supply - vent;
    Totals(
      stockNext,
      t.generated + generation,
      t.supplied + supply,
      t.vented + vent,
      if requested <= 0.0 then t.zeroSupplyHours + 1 else t.zeroSupplyHours,
      if stockNext > t.peakStock then stockNext else t.peakStock)
  }

  /** What one hour promises: the supply is the tier rate clamped to the
      stock on hand, gas is conserved within the hour, venting happens only
      under the compound condition (and then the stock is held at the
      previous hour's level), and the hour is a zero-supply hour exactly when
      the tier rate is not positive. */
  lemma HourFlows(t: Totals, value: real, a: Assumptions)
    ensures var n := Advance(t, value, a);
      var g := Generation(value, a);
      var supply := n.supplied - t.supplied;
      var vent := n.vented - t.vented;
      && n.generated == t.generated + g
      && supply <= t.stock + g
      && supply <= TierSupply(t.stock + g, a)
      && (supply == TierSupply(t.stock + g, a) || supply == t.stock + g)
      && n.stock == t.stock + g - supply - vent
      && (t.stock + g - supply > StorageCapacity && g > a.supplyRateHigh ==>
            vent == g - supply && n.stock == t.stock)
      && (!(t.stock + g - supply > StorageCapacity && g > a.supplyRateHigh) ==>
            vent == 0.0 && n.stock == t.stock + g - supply)
      && (n.zeroSupplyHours == t.zeroSupplyHours + 1 <==> TierSupply(t.stock + g, a) <= 0.0)
      && (n.zeroSupplyHours == t.zeroSupplyHours <==> TierSupply(t.stock + g, a) > 0.0)
  {
  }

  /** With non-negative inputs an hour generates and supplies non-negative
      amounts and leaves a non-negative stock. */
  lemma HourNonNegative(t: Totals, value: real, a: Assumptions)
    requires t.stock >= 0.0 && value >= 0.0
    requires a.installedStack >= 0.0 && a.supplyRateHigh >= 0.0 && a.supplyRateLow >= 0.0
    ensures Advance(t, value, a).generated >= t.generated
    ensures Advance(t, value, a).supplied >= t.supplied
    ensures Advance(t, value, a).stock >= 0.0
  {
    var g := Generation(value, a);
    assert value / BaseStackCapacity >= 0.0;
    assert g >= 0.0;
  }

  /** The tier rate never decreases as the pre-supply stock grows, as long as
      the low rate does not exceed the high rate. */
  lemma TierSupplyMonotone(p: real, q: real, a: Assumptions)
    requires 0.0 <= a.supplyRateLow <= a.supplyRateHigh
    requires p <= q
    ensures TierSupply(p, a) <= TierSupply(q, a)
  {
  }

  // ---------------------------------------------------------------------
  // The whole run
  // ---------------------------------------------------------------------

  /** `Advance` computed the way the loop of `RunSimulation` does: from the
      hour's generation, tier rate, clamped supply and vent. */
  lemma AdvanceByParts(t: Totals, value: real, a: Assumptions,
                       generation: real, requested: real, supply: real, vent: real, next: Totals)
    requires generation == Generation(value, a)
    requires requested == TierSupply(t.stock + generation, a)
    requires supply == Clamp(requested, t.stock + generation)
    requires vent == Vent(t.stock + generation - supply, generation, supply, a)
    requires next.stock == t.stock + generation - supply - vent
    requires next.generated == t.generated + generation
    requires next.supplied == t.supplied + supply
    requires next.vented == t.vented + vent
    requires next.zeroSupplyHours == if requested <= 0.0 then t.zeroSupplyHours + 1 else t.zeroSupplyHours
    requires next.peakStock == if next.stock > t.peakStock then next.stock else t.peakStock
    ensures Advance(t, value, a) == next
  {
  }

  /** The totals after running the first `n` hours of `profile` in order
      from an empty store. */
  function Run(profile: seq<real>, n: nat, a: Assumptions): Totals
    requires n <= |profile|
  {
    if n == 0 then Initial
    else Advance(Run(profile, n - 1, a), profile[n - 1], a)
  }

  /** The totals after the whole profile. */
  function Simulate(profile: seq<real>, a: Assumptions): Totals
  {
    Run(profile, |profile|, a)
  }

  /** Conservation of gas after every hour: everything generated has been
      supplied, vented or is still in stock. Also, no more hours count as
      zero-supply hours than were simulated, and the peak stock is at least
      0 and at least the stock carried out of the last hour run. */
  lemma {:induction false} Conservation(profile: seq<real>, n: nat, a: Assumptions)
    requires n <= |profile|
    ensures Run(profile, n, a).generated
         == Run(profile, n, a).supplied + Run(profile, n, a).vented + Run(profile, n, a).stock
    ensures Run(profile, n, a).zeroSupplyHours <= n
    ensures 0.0 <= Run(profile, n, a).peakStock
    ensures Run(profile, n, a).stock <= Run(profile, n, a).peakStock
  {
    if n > 0 {
      Conservation(profile, n - 1, a);
    }
  }

  /** With non-negative inputs the carried stock and the totals generated
      and supplied never go negative. */
  lemma {:induction false} StockNonNegative(profile: seq<real>, n: nat, a: Assumptions)
    requires n <= |profile|
    requires NonNegativeInputs(profile, a)
    ensures Run(profile, n, a).stock >= 0.0
    ensures Run(profile, n, a).generated >= 0.0
    ensures Run(profile, n, a).supplied >= 0.0
  {
    if n > 0 {
      StockNonNegative(profile, n - 1, a);
      HourNonNegative(Run(profile, n - 1, a), profile[n - 1], a);
    }
  }

  /** When the high rate is at least the low rate, a venting hour vents a
      positive amount (the generation exceeds the high rate, which bounds
      what is supplied), so the vented total never goes negative. */
  lemma {:induction false} VentedNonNegative(profile: seq<real>, n: nat, a: Assumptions)
    requires n <= |profile|
    requires 0.0 <= a.supplyRateHigh && a.supplyRateLow <= a.supplyRateHigh
    ensures Run(profile, n, a).vented >= 0.0
  {
    if n > 0 {
      VentedNonNegative(profile, n - 1, a);
    }
  }

  /** When the low rate exceeds the high rate the vented amount
      `generation - supply` can be negative: a store held above capacity
      by low-rate hours gains gas back through "venting". With an installed
      stack equal to the base stack, a profile of 150000 then 160000, a high
      threshold out of reach, a high rate of 150000 and a low rate of 200000:
      the first hour supplies and vents nothing (150000 is not above the low
      rate, nor above the high rate), leaving 150000 in store; the second asks
      for and supplies the low rate 200000 out of the 310000 on hand, leaving
      110000 above capacity with 160000 generated above the high rate, so it
      vents 160000 - 200000 = -40000. */
  lemma NegativeVentWhenLowRateExceedsHigh(a: Assumptions)
    requires a.installedStack == BaseStackCapacity && a.stockHighThreshold == 1000000000.0
    requires a.supplyRateHigh == 150000.0 && a.supplyRateLow == 200000.0
    ensures Simulate([150000.0, 160000.0], a).vented == -40000.0
  {
    var p := [150000.0, 160000.0];
    var t1 := Run(p, 1, a);
    assert Run(p, 0, a) == Initial && p[0] == 150000.0 && p[1] == 160000.0;
    assert Generation(150000.0, a) == 150000.0;
    assert t1 == Advance(Initial, 150000.0, a);
    assert t1.stock == 150000.0 && t1.vented == 0.0;
    assert Generation(160000.0, a) == 160000.0;
    assert Run(p, 2, a) == Advance(t1, 160000.0, a);
  }

  /** The store is not capped at its capacity: when the hour's generation
      does not exceed the high rate nothing is vented, whatever the stock.
      A single hour of 150000 against a high rate of 200000 and a low rate of
      0 with a supply threshold out of reach leaves 150000 in store, above
      the 100000 capacity (the low rate 0 is asked for and supplied). */
  lemma StockCanExceedStorage(a: Assumptions)
    requires a.installedStack == BaseStackCapacity && a.stockHighThreshold == 1000000000.0
    requires a.supplyRateHigh == 200000.0 && a.supplyRateLow == 0.0
    ensures Simulate([150000.0], a).stock == 150000.0 > StorageCapacity
  {
    assert Generation(150000.0, a) == 150000.0;
    assert Run([150000.0], 1, a) == Advance(Initial, 150000.0, a);
  }

  /** One hour raises the peak to the new stock or keeps it. */
  lemma AdvancePeak(t: Totals, value: real, a: Assumptions)
    ensures Advance(t, value, a).peakStock >= t.peakStock
    ensures Advance(t, value, a).peakStock >= Advance(t, value, a).stock
    ensures Advance(t, value, a).peakStock == t.peakStock
         || Advance(t, value, a).peakStock == Advance(t, value, a).stock
  {
  }

  /** The peak stock is the running maximum of the carried stock, starting
      from 0: it bounds the stock after every hour so far and is either 0 or
      the stock after one of those hours. */
  lemma {:induction false} PeakIsRunningMaximum(profile: seq<real>, n: nat, a: Assumptions)
    requires n <= |profile|
    ensures Run(profile, n, a).peakStock >= 0.0
    ensures forall k :: 0 <= k <= n ==> Run(profile, k, a).stock <= Run(profile, n, a).peakStock
    ensures Run(profile, n, a).peakStock == 0.0
         || exists k :: 1 <= k <= n && Run(profile, k, a).stock == Run(profile, n, a).peakStock
  {
    if n > 0 {
      PeakIsRunningMaximum(profile, n - 1, a);
      var before := Run(profile, n - 1, a);
      var after := Run(profile, n, a);
      AdvancePeak(before, profile[n - 1], a);
      if after.peakStock != 0.0 && after.peakStock != after.stock {
        var k :| 1 <= k <= n - 1 && Run(profile, k, a).stock == before.peakStock;
      }
    }
  }

  // ---------------------------------------------------------------------
  // Sizing metrics
  // ---------------------------------------------------------------------

  /** `Math.ceil` on a real. */
  function Ceil(x: real): (n: int)
    ensures n as real - 1.0 < x <= n as real
  {
    -((-x).Floor)
  }

  /** The zero-supply hours expressed in whole days, rounded up,
      `ceil(hours / 24)`: the least number of whole days covering the hours
      (not the number of days that had a zero-supply hour). */
  function ZeroSupplyDays(hours: nat): (d: int)
    ensures d >= 0
    ensures 24 * d >= hours
    ensures 24 * (d - 1) < hours
  {
    Ceil(hours as real / 24.0)
  }

  /** `ceil(hours / 24)` computed over reals equals the integer formula. */
  lemma ZeroSupplyDaysIsIntegerCeiling(hours: nat)
    ensures ZeroSupplyDays(hours) == (hours + 23) / 24
  {
    var d := ZeroSupplyDays(hours);
    var q := (hours + 23) / 24;
    assert 24 * q <= hours + 23 < 24 * q + 24;
  }

  /** Cylinders needed, `ceil(peak / capacity)`: the least whole number of
      cylinders whose total capacity holds the peak stock. */
  function Cylinders(peak: real, capacity: real): (n: int)
    requires capacity > 0.0
    ensures n as real * capacity >= peak
    ensures (n - 1) as real * capacity < peak
  {
    var x := peak / capacity;
    var n := Ceil(x);
    assert x * capacity == peak;
    assert (n - 1) as real == n as real - 1.0;
    MultiplyPreservesOrder(x, n as real, capacity);
    MultiplyPreservesStrictOrder((n - 1) as real, x, capacity);
    assert (n - 1) as real * capacity < peak;
    n
  }

  lemma MultiplyPreservesOrder(x: real, y: real, c: real)
    requires c > 0.0 && x <= y
    ensures x * c <= y * c
  {
  }

  lemma MultiplyPreservesStrictOrder(x: real, y: real, c: real)
    requires c > 0.0 && x < y
    ensures x * c < y * c
  {
  }

  /** A peak stock of exactly `k` cylinders' worth needs `k` cylinders,
      not `k + 1`. */
  lemma ExactMultipleNeedsExactCylinders(k: int, capacity: real)
    requires capacity > 0.0
    ensures Cylinders(k as real * capacity, capacity) == k
  {
    var n := Cylinders(k as real * capacity, capacity);
    if n < k {
      MultiplyPreservesStrictOrder(n as real, k as real, capacity);
    } else if n > k {
      MultiplyPreservesOrder(k as real, (n - 1) as real, capacity);
    }
  }

  /** Capital cost of the cylinders. */
  function CapitalCost(cylinders: int, costPerCylinder: real): real
  {
    cylinders as real * costPerCylinder
  }

  /** What the page shows. */
  datatype Results = Results(
    totalHydrogenGenerated: real,
    totalHydrogenSupplied: real,
    totalHydrogenVented: real,
    peakStock: real,
    numberOfCylinders: int,
    capitalCost: real,
    zeroSupplyHours: nat,
    zeroSupplyDays: int)

  /** The post-processing of the final totals into sizing metrics. */
  function Summarize(t: Totals, a: Assumptions): Results
    requires a.cylinderCapacity > 0.0
  {
    var cylinders := Cylinders(t.peakStock, a.cylinderCapacity);
    Results(
      t.generated, t.supplied, t.vented, t.peakStock,
      cylinders, CapitalCost(cylinders, a.cylinderCost),
      t.zeroSupplyHours, ZeroSupplyDays(t.zeroSupplyHours))
  }

  /** An empty profile runs no hours and reports all-zero results. */
  lemma EmptyProfileGivesZeroResults(a: Assumptions)
    requires a.cylinderCapacity > 0.0
    ensures Summarize(Simulate([], a), a) == Results(0.0, 0.0, 0.0, 0.0, 0, 0.0, 0, 0)
  {
    ExactMultipleNeedsExactCylinders(0, a.cylinderCapacity);
  }

  // ---------------------------------------------------------------------
  // The simulation loop as the page runs it
  // ---------------------------------------------------------------------

  /** One pass of the page's loop body up to the stock update: the hour's
      generation, the tier rate asked for, the supply once clamped to the
      stock on hand and the amount vented. */
  method DispatchHour(stock: real, value: real, a: Assumptions)
    returns (generation: real, requested: real, supply: real, vent: real)
    ensures generation == Generation(value, a)
    ensures requested == TierSupply(stock + generation, a)
    ensures supply == Clamp(requested, stock + generation)
    ensures vent == Vent(stock + generation - supply, generation, supply, a)
  {
    generation := value / BaseStackCapacity * a.installedStack;
    var stockPreSupply := stock + generation;
    if stockPreSupply > a.stockHighThreshold {
      requested := a.supplyRateHigh;
    } else if stockPreSupply > a.supplyRateLow {
      requested := a.supplyRateLow;
    } else {
      requested := 0.0;
    }
    supply := requested;
    if supply > stockPreSupply {
      supply := stockPreSupply;
    }
    var stockAfterSupply := stockPreSupply - supply;
    vent := 0.0;
    if stockAfterSupply > StorageCapacity {
      if generation > a.supplyRateHigh {
        vent := generation - supply;
      }
    }
  }

  /** `runSimulation`: one pass over the profile updating the stock and the
      running totals, then the sizing metrics. */
  method RunSimulation(profile: seq<real>, a: Assumptions) returns (r: Results)
    requires a.cylinderCapacity > 0.0
    ensures r == Summarize(Simulate(profile, a), a)
    ensures r.totalHydrogenGenerated
         == r.totalHydrogenSupplied + r.totalHydrogenVented + Simulate(profile, a).stock
    ensures r.zeroSupplyHours <= |profile|
    ensures 0.0 <= r.peakStock && Simulate(profile, a).stock <= r.peakStock
  {
    var stock, totalGen, totalSupplied, totalVented := 0.0, 0.0, 0.0, 0.0;
    var zeroSupplyHours: nat := 0;
    var peakStock := 0.0;
    var hours := |profile|;
    ghost var t := Initial;
    for i := 0 to hours
      invariant t == Run(profile, i, a)
      invariant t == Totals(stock, totalGen, totalSupplied, totalVented, zeroSupplyHours, peakStock)
    {
      var generation, requested, supply, vent := DispatchHour(stock, profile[i], a);
      totalGen := totalGen + generation;
      if requested <= 0.0 {
        zeroSupplyHours := zeroSupplyHours + 1;
      }
      stock := stock + generation - supply - vent;
      totalVented := totalVented + vent;
      totalSupplied := totalSupplied + supply;
      if stock > peakStock {
        peakStock := stock;
      }
      AdvanceByParts(t, profile[i], a, generation, requested, supply, vent,
        Totals(stock, totalGen, totalSupplied, totalVented, zeroSupplyHours, peakStock));
      t := Advance(t, profile[i], a);
    }
    Conservation(profile, hours, a);
    var zeroSupplyDays := ZeroSupplyDays(zeroSupplyHours);
    var numberOfCylinders := Cylinders(peakStock, a.cylinderCapacity);
    var capitalCost := CapitalCost(numberOfCylinders, a.cylinderCost);
    r := Results(totalGen, totalSupplied, totalVented, peakStock,
                 numberOfCylinders, capitalCost, zeroSupplyHours, zeroSupplyDays);
  }
}
