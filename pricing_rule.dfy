/** The pricing-rule record of the billing service and its enumerations. */
module PricingRules {
  import opened Wrappers
  import opened Common

  /** What a rule prices. */
  datatype RuleType =
    | BaseRate | PerKmRate | UrgentSurcharge | AfterHoursSurcharge
    | WeekendSurcharge | WeightSurcharge | DistanceSurcharge | Custom

  datatype CustomerType = Individual | Business | MedicalFacility

  datatype PriorityLevel = Low | Normal | High | Urgent

  /** Every rule type, in declaration order. */
  function AllRuleTypes(): (s: seq<RuleType>)
    ensures |s| == 8
    ensures forall t: RuleType :: t in s
    ensures forall i, j | 0 <= i < j < |s| :: s[i] != s[j]
  {
    var s := [BaseRate, PerKmRate, UrgentSurcharge, AfterHoursSurcharge,
              WeekendSurcharge, WeightSurcharge, DistanceSurcharge, Custom];
    assert forall t: RuleType :: t in s by {
      forall t: RuleType ensures t in s {
        assert t == s[0] || t == s[1] || t == s[2] || t == s[3]
            || t == s[4] || t == s[5] || t == s[6] || t == s[7];
      }
    }
    s
  }

  /** Every customer type, in declaration order. */
  function AllCustomerTypes(): (s: seq<CustomerType>)
    ensures |s| == 3
    ensures forall t: CustomerType :: t in s
    ensures forall i, j | 0 <= i < j < |s| :: s[i] != s[j]
  {
    var s := [Individual, Business, MedicalFacility];
    assert forall t: CustomerType :: t in s by {
      forall t: CustomerType ensures t in s {
        assert t == s[0] || t == s[1] || t == s[2];
      }
    }
    s
  }

  /** Every priority level, in declaration order. */
  function AllPriorityLevels(): (s: seq<PriorityLevel>)
    ensures |s| == 4
    ensures forall p: PriorityLevel :: p in s
    ensures forall i, j | 0 <= i < j < |s| :: s[i] != s[j]
  {
    var s := [Low, Normal, High, Urgent];
    assert forall p: PriorityLevel :: p in s by {
      forall p: PriorityLevel ensures p in s {
        assert p == s[0] || p == s[1] || p == s[2] || p == s[3];
      }
    }
    s
  }

  /**
   * One row of the pricing_rules table. The rule type and the value are NOT
   * NULL columns and so are plain fields; every scope field is optional, and
   * an absent one is a wildcard. The audit timestamps are not modelled.
   */
  datatype PricingRule = PricingRule(
    id: Uuid,
    name: string,
    description: Option<string>,
    ruleType: RuleType,
    value: real,
    unit: Option<string>,
    customerId: Option<Uuid>,
    customerType: Option<CustomerType>,
    priorityLevel: Option<PriorityLevel>,
    minDistanceKm: Option<real>,
    maxDistanceKm: Option<real>,
    minWeightKg: Option<real>,
    maxWeightKg: Option<real>,
    timeOfDayStart: Option<NanoOfDay>,
    timeOfDayEnd: Option<NanoOfDay>,
    dayOfWeek: Option<string>,
    active: Option<bool>,
    createdBy: Uuid,
    validFrom: Option<Date>,
    validUntil: Option<Date>)

  /** A rule without a customer id applies to every customer. */
  predicate IsGlobal(r: PricingRule) {
    r.customerId.None?
  }

  /** A rule none of whose scope fields is set. */
  predicate IsUnscoped(r: PricingRule) {
    && r.customerId.None? && r.customerType.None? && r.priorityLevel.None?
    && r.minDistanceKm.None? && r.maxDistanceKm.None?
    && r.minWeightKg.None? && r.maxWeightKg.None?
    && r.timeOfDayStart.None? && r.timeOfDayEnd.None? && r.dayOfWeek.None?
  }

  /**
   * A rule made by the no-argument constructor, with the NOT NULL columns then
   * filled in: it is active, its unit is "FLAT", it is global and unscoped,
   * and its validity window is open at both ends.
   */
  function NewRule(id: Uuid, name: string, ruleType: RuleType, value: real, createdBy: Uuid): (r: PricingRule)
    ensures r.active == Some(true) && r.unit == Some("FLAT")
    ensures IsGlobal(r) && IsUnscoped(r)
    ensures r.validFrom.None? && r.validUntil.None?
    ensures r.ruleType == ruleType && r.value == value
  {
    PricingRule(id, name, None, ruleType, value, Some("FLAT"),
                None, None, None, None, None, None, None, None, None, None,
                Some(true), createdBy, None, None)
  }
}
