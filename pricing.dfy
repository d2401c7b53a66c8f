/**
 * The price calculation of the billing service (PricingService): a rule
 * value or a built-in default for each charge component, half-up rounding to
 * cents, strict surcharge thresholds, a subtotal and a 10% tax; and the update
 * and delete operations of the rule table.
 */
module Pricing {
  import opened Wrappers
  import opened Common
  import opened Money
  import opened PricingRules
  import opened RuleMatching

  /** The defaults used when no rule of the component's type applies. */
  const DefaultBaseRate: real := 15.00
  const DefaultPerKmRate: real := 1.20
  const DefaultUrgentSurcharge: real := 5.00
  const DefaultAfterHoursSurcharge: real := 7.50
  const DefaultWeekendSurcharge: real := 10.00

  /** A weight surcharge is looked up only above this weight, a distance surcharge only above this distance. */
  const WeightThresholdKg: real := 10.0
  const DistanceThresholdKm: real := 50.0

  const TaxRate: real := 0.10

  /** The business day; a delivery strictly before the opening or strictly after the closing time is after hours. */
  const OpeningTime: NanoOfDay := TimeOf(8, 0, 0)
  const ClosingTime: NanoOfDay := TimeOf(18, 0, 0)

  /** The arguments of calculateDeliveryPrice. Distance and weight are taken as exact decimals. */
  datatype PricingRequest = PricingRequest(
    customerId: Option<Uuid>,
    customerType: Option<CustomerType>,
    priorityLevel: Option<PriorityLevel>,
    distanceKm: real,
    weightKg: real,
    deliveryTime: DateTime)

  /** `isBefore(08:00) || isAfter(18:00)`. */
  predicate IsAfterHours(t: NanoOfDay) {
    t < OpeningTime || t > ClosingTime
  }

  predicate IsWeekend(d: Date) {
    DayOfWeekOf(d) == Saturday || DayOfWeekOf(d) == Sunday
  }

  /** The "applicable rules" query of a component for this request. */
  function ScopedQuery(t: RuleType, req: PricingRequest): RuleQuery {
    ApplicableRules(t, req.customerId, req.customerType, req.priorityLevel)
  }

  function DistanceQuery(t: RuleType, req: PricingRequest): RuleQuery {
    ApplicableRulesByDistance(t, req.customerId, req.customerType, req.priorityLevel, req.distanceKm)
  }

  function WeightQuery(t: RuleType, req: PricingRequest): RuleQuery {
    ApplicableRulesByWeight(t, req.customerId, req.customerType, req.priorityLevel, req.weightKg)
  }

  /** The value of the head of the query result, or `fallback` when the result is empty. */
  function SelectedValue(rules: seq<PricingRule>, q: RuleQuery, currentDate: Date, fallback: real): real {
    var found := Select(rules, q, currentDate);
    if found == [] then fallback else found[0].value
  }

  /** The base rate: the first applicable BASE_RATE rule's value, or 15.00. */
  function BaseRateOf(rules: seq<PricingRule>, req: PricingRequest, today: Date): real {
    SelectedValue(rules, ScopedQuery(BaseRate, req), today, DefaultBaseRate)
  }

  /** The per-km rate: the first PER_KM_RATE rule whose distance range holds the distance, or 1.20. */
  function PerKmRateOf(rules: seq<PricingRule>, req: PricingRequest, today: Date): real {
    SelectedValue(rules, DistanceQuery(PerKmRate, req), today, DefaultPerKmRate)
  }

  function UrgentSurchargeOf(rules: seq<PricingRule>, req: PricingRequest, today: Date): real {
    if req.priorityLevel == Some(Urgent)
    then SelectedValue(rules, ScopedQuery(UrgentSurcharge, req), today, DefaultUrgentSurcharge)
    else 0.0
  }

  function AfterHoursSurchargeOf(rules: seq<PricingRule>, req: PricingRequest, today: Date): real {
    if IsAfterHours(req.deliveryTime.time)
    then SelectedValue(rules, ScopedQuery(AfterHoursSurcharge, req), today, DefaultAfterHoursSurcharge)
    else 0.0
  }

  function WeekendSurchargeOf(rules: seq<PricingRule>, req: PricingRequest, today: Date): real {
    if IsWeekend(req.deliveryTime.date)
    then SelectedValue(rules, ScopedQuery(WeekendSurcharge, req), today, DefaultWeekendSurcharge)
    else 0.0
  }

  /** No default: without a matching rule the weight surcharge stays zero. */
  function WeightSurchargeOf(rules: seq<PricingRule>, req: PricingRequest, today: Date): real {
    if req.weightKg > WeightThresholdKg
    then SelectedValue(rules, WeightQuery(WeightSurcharge, req), today, 0.0)
    else 0.0
  }

  /** No default: without a matching rule the distance surcharge stays zero. */
  function DistanceSurchargeOf(rules: seq<PricingRule>, req: PricingRequest, today: Date): real {
    if req.distanceKm > DistanceThresholdKm
    then SelectedValue(rules, DistanceQuery(DistanceSurcharge, req), today, 0.0)
    else 0.0
  }

  /** The eleven amounts of a PricingCalculation. */
  datatype Charges = Charges(
    baseRate: real,
    perKmRate: real,
    distanceCharge: real,
    urgentSurcharge: real,
    afterHoursSurcharge: real,
    weekendSurcharge: real,
    weightSurcharge: real,
    distanceSurcharge: real,
    subtotal: real,
    taxAmount: real,
    total: real)

  /** The distance charge: the per-km rate times the distance, rounded half-up to cents. */
  function DistanceCharge(rate: real, distance: real): real {
    RoundHalfUp2(rate * distance)
  }

  function DistanceChargeOf(rules: seq<PricingRule>, req: PricingRequest, today: Date): real {
    DistanceCharge(PerKmRateOf(rules, req, today), req.distanceKm)
  }

  /** The seven components that make up the subtotal; the per-km rate is not one of them. */
  function SubtotalOf(rules: seq<PricingRule>, req: PricingRequest, today: Date): real {
    BaseRateOf(rules, req, today) + DistanceChargeOf(rules, req, today) + UrgentSurchargeOf(rules, req, today)
    + AfterHoursSurchargeOf(rules, req, today) + WeekendSurchargeOf(rules, req, today)
    + WeightSurchargeOf(rules, req, today) + DistanceSurchargeOf(rules, req, today)
  }

  /** The 10% tax on the subtotal, rounded half-up to cents. */
  function TaxOf(subtotal: real): real {
    RoundHalfUp2(subtotal * TaxRate)
  }

  /**
   * The calculation as a value: what calculateDeliveryPrice computes for the
   * rule table `rules` (in the order the database returns its rows) on the
   * date `today`.
   */
  function Quote(rules: seq<PricingRule>, req: PricingRequest, today: Date): Charges {
    var subtotal := SubtotalOf(rules, req, today);
    Charges(
      BaseRateOf(rules, req, today), PerKmRateOf(rules, req, today), DistanceChargeOf(rules, req, today),
      UrgentSurchargeOf(rules, req, today), AfterHoursSurchargeOf(rules, req, today),
      WeekendSurchargeOf(rules, req, today), WeightSurchargeOf(rules, req, today),
      DistanceSurchargeOf(rules, req, today), subtotal, TaxOf(subtotal), subtotal + TaxOf(subtotal))
  }

  /**
   * PricingService.PricingCalculation: a mutable record the calculation fills
   * in field by field. The five surcharges start at zero; the other fields are
   * null until set and start at zero here, and every one of them is set before
   * it is read.
   */
  class PricingCalculation {
    var baseRate: real
    var perKmRate: real
    var distanceCharge: real
    var urgentSurcharge: real
    var afterHoursSurcharge: real
    var weekendSurcharge: real
    var weightSurcharge: real
    var distanceSurcharge: real
    var subtotal: real
    var taxAmount: real
    var total: real

    constructor()
      ensures urgentSurcharge == 0.0 && afterHoursSurcharge == 0.0 && weekendSurcharge == 0.0
      ensures weightSurcharge == 0.0 && distanceSurcharge == 0.0
    {
      baseRate, perKmRate, distanceCharge := 0.0, 0.0, 0.0;
      urgentSurcharge, afterHoursSurcharge, weekendSurcharge := 0.0, 0.0, 0.0;
      weightSurcharge, distanceSurcharge := 0.0, 0.0;
      subtotal, taxAmount, total := 0.0, 0.0, 0.0;
    }

    /** The current field values. */
    function Snapshot(): Charges
      reads this
    {
      Charges(baseRate, perKmRate, distanceCharge, urgentSurcharge, afterHoursSurcharge,
              weekendSurcharge, weightSurcharge, distanceSurcharge, subtotal, taxAmount, total)
    }
  }

  /** Rule ids are unique in the table. */
  predicate DistinctIds(rules: seq<PricingRule>) {
    forall i, j | 0 <= i < j < |rules| :: rules[i].id != rules[j].id
  }

  predicate HasRule(rules: seq<PricingRule>, id: Uuid) {
    exists i | 0 <= i < |rules| :: rules[i].id == id
  }

  /** updateRule's setters: every field of `details` except the id and the creator. */
  function CopyDetails(rule: PricingRule, details: PricingRule): (r: PricingRule)
    ensures r == details.(id := rule.id, createdBy := rule.createdBy)
  {
    rule.(name := details.name, description := details.description, ruleType := details.ruleType,
          value := details.value, unit := details.unit, customerId := details.customerId,
          customerType := details.customerType, priorityLevel := details.priorityLevel,
          minDistanceKm := details.minDistanceKm, maxDistanceKm := details.maxDistanceKm,
          minWeightKg := details.minWeightKg, maxWeightKg := details.maxWeightKg,
          timeOfDayStart := details.timeOfDayStart, timeOfDayEnd := details.timeOfDayEnd,
          dayOfWeek := details.dayOfWeek, active := details.active,
          validFrom := details.validFrom, validUntil := details.validUntil)
  }

  /** The table after the rule with this id (if any) has received the details. */
  function UpdatedRules(rules: seq<PricingRule>, id: Uuid, details: PricingRule): (res: seq<PricingRule>)
    ensures |res| == |rules|
    ensures forall i | 0 <= i < |rules| ::
      res[i] == if rules[i].id == id then CopyDetails(rules[i], details) else rules[i]
  {
    seq(|rules|, i requires 0 <= i < |rules| =>
      if rules[i].id == id then CopyDetails(rules[i], details) else rules[i])
  }

  /** The table without the rule with this id. */
  function WithoutRule(rules: seq<PricingRule>, id: Uuid): (res: seq<PricingRule>)
    ensures |res| <= |rules|
    ensures forall r :: r in res <==> r in rules && r.id != id
  {
    if rules == [] then []
    else (if rules[0].id != id then [rules[0]] else []) + WithoutRule(rules[1..], id)
  }

  /** In a table with unique ids, no later rule shares the first rule's id, and the rest has unique ids. */
  lemma DistinctIdsTail(rules: seq<PricingRule>)
    requires DistinctIds(rules) && rules != []
    ensures DistinctIds(rules[1..])
    ensures forall r | r in rules[1..] :: r.id != rules[0].id
  {
    forall r | r in rules[1..] ensures r.id != rules[0].id {
      var k :| 0 <= k < |rules[1..]| && rules[1..][k] == r;
      assert rules[k + 1] == r;
    }
    forall i, j | 0 <= i < j < |rules[1..]| ensures rules[1..][i].id != rules[1..][j].id {
      assert rules[1..][i] == rules[i + 1] && rules[1..][j] == rules[j + 1];
    }
  }

  /** Putting a rule whose id is new in front of a table with unique ids keeps them unique. */
  lemma DistinctIdsCons(r: PricingRule, rules: seq<PricingRule>)
    requires DistinctIds(rules)
    requires forall x | x in rules :: x.id != r.id
    ensures DistinctIds([r] + rules)
  {
    var res := [r] + rules;
    forall i, j | 0 <= i < j < |res| ensures res[i].id != res[j].id {
      assert res[j] == rules[j - 1];
      if i > 0 {
        assert res[i] == rules[i - 1];
      }
    }
  }

  /** Removing a rule keeps the remaining ids unique. */
  lemma {:induction false} WithoutRuleKeepsDistinctIds(rules: seq<PricingRule>, id: Uuid)
    requires DistinctIds(rules)
    ensures DistinctIds(WithoutRule(rules, id))
  {
    if rules != [] {
      DistinctIdsTail(rules);
      WithoutRuleKeepsDistinctIds(rules[1..], id);
      if rules[0].id != id {
        DistinctIdsCons(rules[0], WithoutRule(rules[1..], id));
      } else {
        assert WithoutRule(rules, id) == WithoutRule(rules[1..], id);
      }
    }
  }

  /** Updating a rule changes no id, so the ids stay unique. */
  lemma UpdatedRulesKeepIds(rules: seq<PricingRule>, id: Uuid, details: PricingRule)
    ensures forall i | 0 <= i < |rules| :: UpdatedRules(rules, id, details)[i].id == rules[i].id
    ensures DistinctIds(rules) ==> DistinctIds(UpdatedRules(rules, id, details))
  {
  }

  /**
   * The pricing service over the pricing_rules table. `rules` holds the rows
   * in the order the database returns them.
   */
  class PricingService {
    var rules: seq<PricingRule>

    ghost predicate Valid()
      reads this
    {
      DistinctIds(rules)
    }

    constructor(initial: seq<PricingRule>)
      requires DistinctIds(initial)
      ensures Valid() && rules == initial
    {
      rules := initial;
    }

    /**
     * calculateDeliveryPrice, with LocalDate.now() as `today`. Every rule
     * lookup checks validity against `today`, not against the delivery date.
     * `SelectedValue(rules, q, today, v)` is the repository call followed by
     * `isEmpty() ? v : get(0).getValue()`. The lookups are split over two
     * helper methods; the totals are computed here.
     */
    method CalculateDeliveryPrice(req: PricingRequest, today: Date) returns (calculation: PricingCalculation)
      ensures calculation.Snapshot() == Quote(rules, req, today)
    {
      calculation := LookUpRates(req, today);
      AddSurcharges(calculation, req, today);

      var subtotal := calculation.baseRate + calculation.distanceCharge + calculation.urgentSurcharge
                      + calculation.afterHoursSurcharge + calculation.weekendSurcharge
                      + calculation.weightSurcharge + calculation.distanceSurcharge;
      calculation.subtotal := subtotal;
      var taxAmount := RoundHalfUp2(subtotal * TaxRate);
      calculation.taxAmount := taxAmount;
      calculation.total := subtotal + taxAmount;
    }

    /** The first steps of calculateDeliveryPrice: a fresh calculation with the base rate, the per-km rate and the distance charge. */
    method LookUpRates(req: PricingRequest, today: Date) returns (calculation: PricingCalculation)
      ensures fresh(calculation)
      ensures calculation.baseRate == BaseRateOf(rules, req, today)
      ensures calculation.perKmRate == PerKmRateOf(rules, req, today)
      ensures calculation.distanceCharge == DistanceChargeOf(rules, req, today)
      ensures calculation.urgentSurcharge == 0.0 && calculation.afterHoursSurcharge == 0.0
      ensures calculation.weekendSurcharge == 0.0 && calculation.weightSurcharge == 0.0
      ensures calculation.distanceSurcharge == 0.0
    {
      calculation := new PricingCalculation();
      calculation.baseRate := SelectedValue(rules, ScopedQuery(BaseRate, req), today, DefaultBaseRate);
      calculation.perKmRate := SelectedValue(rules, DistanceQuery(PerKmRate, req), today, DefaultPerKmRate);
      calculation.distanceCharge := DistanceCharge(calculation.perKmRate, req.distanceKm);
    }

    /** The surcharge steps of calculateDeliveryPrice: each surcharge is set only when its condition holds. */
    method AddSurcharges(calculation: PricingCalculation, req: PricingRequest, today: Date)
      requires calculation.urgentSurcharge == 0.0 && calculation.afterHoursSurcharge == 0.0
      requires calculation.weekendSurcharge == 0.0 && calculation.weightSurcharge == 0.0
      requires calculation.distanceSurcharge == 0.0
      modifies calculation
      ensures calculation.baseRate == old(calculation.baseRate)
      ensures calculation.perKmRate == old(calculation.perKmRate)
      ensures calculation.distanceCharge == old(calculation.distanceCharge)
      ensures calculation.urgentSurcharge == UrgentSurchargeOf(rules, req, today)
      ensures calculation.afterHoursSurcharge == AfterHoursSurchargeOf(rules, req, today)
      ensures calculation.weekendSurcharge == WeekendSurchargeOf(rules, req, today)
      ensures calculation.weightSurcharge == WeightSurchargeOf(rules, req, today)
      ensures calculation.distanceSurcharge == DistanceSurchargeOf(rules, req, today)
    {
      if req.priorityLevel == Some(Urgent) {
        calculation.urgentSurcharge :=
          SelectedValue(rules, ScopedQuery(UrgentSurcharge, req), today, DefaultUrgentSurcharge);
      }
      if IsAfterHours(req.deliveryTime.time) {
        calculation.afterHoursSurcharge :=
          SelectedValue(rules, ScopedQuery(AfterHoursSurcharge, req), today, DefaultAfterHoursSurcharge);
      }
      if IsWeekend(req.deliveryTime.date) {
        calculation.weekendSurcharge :=
          SelectedValue(rules, ScopedQuery(WeekendSurcharge, req), today, DefaultWeekendSurcharge);
      }
      // No default for these two: with no applicable rule the field keeps its zero.
      if req.weightKg > WeightThresholdKg {
        calculation.weightSurcharge :=
          SelectedValue(rules, WeightQuery(WeightSurcharge, req), today, calculation.weightSurcharge);
      }
      if req.distanceKm > DistanceThresholdKm {
        calculation.distanceSurcharge :=
          SelectedValue(rules, DistanceQuery(DistanceSurcharge, req), today, calculation.distanceSurcharge);
      }
    }

    /**
     * updateRule: copies the details onto the stored rule with this id and
     * returns it; fails with nothing changed when there is no such rule.
     */
    method UpdateRule(id: Uuid, details: PricingRule) returns (res: Result<PricingRule>)
      requires Valid()
      modifies this
      ensures Valid()
      ensures rules == UpdatedRules(old(rules), id, details)
      ensures !HasRule(old(rules), id) ==> res == Failure(NotFound("PricingRule")) && rules == old(rules)
      ensures HasRule(old(rules), id) ==>
        res.Success? && res.value.id == id && res.value in rules
        && forall i | 0 <= i < |old(rules)| && old(rules)[i].id == id :: res.value == CopyDetails(old(rules)[i], details)
    {
      UpdatedRulesKeepIds(rules, id, details);
      if i :| 0 <= i < |rules| && rules[i].id == id {
        var updated := CopyDetails(rules[i], details);
        rules := rules[i := updated];
        res := Success(updated);
      } else {
        assert UpdatedRules(rules, id, details) == rules;
        res := Failure(NotFound("PricingRule"));
      }
    }

    /** deleteRule: removes the rule with this id; fails with nothing changed when there is none. */
    method DeleteRule(id: Uuid) returns (res: Outcome)
      requires Valid()
      modifies this
      ensures Valid()
      ensures res == (if HasRule(old(rules), id) then Done else Failed(NotFound("PricingRule")))
      ensures rules == (if HasRule(old(rules), id) then WithoutRule(old(rules), id) else old(rules))
    {
      if !HasRule(rules, id) {
        return Failed(NotFound("PricingRule"));
      }
      WithoutRuleKeepsDistinctIds(rules, id);
      rules := WithoutRule(rules, id);
      res := Done;
    }
  }
}
