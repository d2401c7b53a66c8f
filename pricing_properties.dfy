/** What the price calculation promises, stated as lemmas about Quote. */
module PricingProperties {
  import opened Wrappers
  import opened Common
  import opened Money
  import opened PricingRules
  import opened RuleMatching
  import opened Pricing

  /**
   * The value taken for a component is the fallback when no rule of the
   * snapshot applies, and otherwise the value of the first applicable rule.
   */
  lemma SelectedValueIsFirstMatch(rules: seq<PricingRule>, q: RuleQuery, today: Date, fallback: real)
    ensures NoMatch(rules, q, today) ==> SelectedValue(rules, q, today, fallback) == fallback
    ensures forall i | IsFirstMatch(rules, q, today, i) :: SelectedValue(rules, q, today, fallback) == rules[i].value
  {
    SelectEmptyIffNoMatch(rules, q, today);
    SelectHeadIsFirstMatch(rules, q, today);
    forall i | IsFirstMatch(rules, q, today, i) ensures SelectedValue(rules, q, today, fallback) == rules[i].value {
      var k :| IsFirstMatch(rules, q, today, k) && Select(rules, q, today)[0] == rules[k];
      FirstMatchUnique(rules, q, today, i, k);
    }
  }

  /** The value taken for a component is the fallback or the value of some rule of the table. */
  lemma SelectedValueSource(rules: seq<PricingRule>, q: RuleQuery, today: Date, fallback: real)
    ensures SelectedValue(rules, q, today, fallback) == fallback
         || exists i :: 0 <= i < |rules| && SelectedValue(rules, q, today, fallback) == rules[i].value
  {
    var found := Select(rules, q, today);
    if found != [] {
      SelectMembers(rules, q, today);
      assert found[0] in found;
      var i :| 0 <= i < |rules| && rules[i] == found[0];
    }
  }

  /**
   * The base rate is 15.00 when no BASE_RATE rule applies and otherwise the
   * value of the first applicable one, unrounded; likewise the per-km rate
   * with 1.20 and the PER_KM_RATE rules whose distance range holds the distance.
   */
  lemma BaseAndPerKmRates(rules: seq<PricingRule>, req: PricingRequest, today: Date)
    ensures NoMatch(rules, ScopedQuery(BaseRate, req), today) ==> Quote(rules, req, today).baseRate == 15.00
    ensures forall i | IsFirstMatch(rules, ScopedQuery(BaseRate, req), today, i) ::
      Quote(rules, req, today).baseRate == rules[i].value
    ensures NoMatch(rules, DistanceQuery(PerKmRate, req), today) ==> Quote(rules, req, today).perKmRate == 1.20
    ensures forall i | IsFirstMatch(rules, DistanceQuery(PerKmRate, req), today, i) ::
      Quote(rules, req, today).perKmRate == rules[i].value
  {
    SelectedValueIsFirstMatch(rules, ScopedQuery(BaseRate, req), today, DefaultBaseRate);
    SelectedValueIsFirstMatch(rules, DistanceQuery(PerKmRate, req), today, DefaultPerKmRate);
  }

  /**
   * The distance charge is the per-km rate times the distance, rounded
   * half-up to cents: for every rate and distance, a two-decimal amount within
   * half a cent of the exact product.
   */
  lemma DistanceChargeWithin(rate: real, distance: real)
    ensures IsCents(DistanceCharge(rate, distance))
    ensures -0.005 <= DistanceCharge(rate, distance) - rate * distance <= 0.005
  {
    RoundHalfUp2Within(rate * distance);
  }

  /**
   * The urgent surcharge is zero unless the priority is URGENT; for an urgent
   * request it is the first applicable URGENT_SURCHARGE rule's value, or 5.00.
   */
  lemma UrgentSurchargeRule(rules: seq<PricingRule>, req: PricingRequest, today: Date)
    ensures req.priorityLevel != Some(Urgent) ==> Quote(rules, req, today).urgentSurcharge == 0.0
    ensures req.priorityLevel == Some(Urgent) && NoMatch(rules, ScopedQuery(UrgentSurcharge, req), today) ==>
      Quote(rules, req, today).urgentSurcharge == 5.00
    ensures req.priorityLevel == Some(Urgent) ==>
      forall i | IsFirstMatch(rules, ScopedQuery(UrgentSurcharge, req), today, i) ::
        Quote(rules, req, today).urgentSurcharge == rules[i].value
  {
    SelectedValueIsFirstMatch(rules, ScopedQuery(UrgentSurcharge, req), today, DefaultUrgentSurcharge);
  }

  /**
   * The after-hours surcharge is zero unless the delivery time is strictly
   * before 08:00 or strictly after 18:00; then it is the first applicable
   * AFTER_HOURS_SURCHARGE rule's value, or 7.50.
   */
  lemma AfterHoursSurchargeRule(rules: seq<PricingRule>, req: PricingRequest, today: Date)
    ensures IsAfterHours(req.deliveryTime.time) <==>
      req.deliveryTime.time < TimeOf(8, 0, 0) || req.deliveryTime.time > TimeOf(18, 0, 0)
    ensures !IsAfterHours(req.deliveryTime.time) ==> Quote(rules, req, today).afterHoursSurcharge == 0.0
    ensures IsAfterHours(req.deliveryTime.time) && NoMatch(rules, ScopedQuery(AfterHoursSurcharge, req), today) ==>
      Quote(rules, req, today).afterHoursSurcharge == 7.50
    ensures IsAfterHours(req.deliveryTime.time) ==>
      forall i | IsFirstMatch(rules, ScopedQuery(AfterHoursSurcharge, req), today, i) ::
        Quote(rules, req, today).afterHoursSurcharge == rules[i].value
  {
    SelectedValueIsFirstMatch(rules, ScopedQuery(AfterHoursSurcharge, req), today, DefaultAfterHoursSurcharge);
  }

  /** 08:00:00 and 18:00:00 exactly are business hours; a second earlier, or any instant later, is not. */
  lemma AfterHoursBoundaries()
    ensures !IsAfterHours(TimeOf(8, 0, 0)) && !IsAfterHours(TimeOf(18, 0, 0))
    ensures IsAfterHours(TimeOf(7, 59, 59)) && IsAfterHours(TimeOf(18, 0, 0) + 1)
    ensures IsAfterHours(TimeOf(0, 0, 0)) && !IsAfterHours(TimeOf(12, 0, 0))
  {
  }

  /**
   * The weekend surcharge is zero unless the delivery date is a Saturday or a
   * Sunday; then it is the first applicable WEEKEND_SURCHARGE rule's value, or 10.00.
   */
  lemma WeekendSurchargeRule(rules: seq<PricingRule>, req: PricingRequest, today: Date)
    ensures !IsWeekend(req.deliveryTime.date) ==> Quote(rules, req, today).weekendSurcharge == 0.0
    ensures IsWeekend(req.deliveryTime.date) && NoMatch(rules, ScopedQuery(WeekendSurcharge, req), today) ==>
      Quote(rules, req, today).weekendSurcharge == 10.00
    ensures IsWeekend(req.deliveryTime.date) ==>
      forall i | IsFirstMatch(rules, ScopedQuery(WeekendSurcharge, req), today, i) ::
        Quote(rules, req, today).weekendSurcharge == rules[i].value
  {
    SelectedValueIsFirstMatch(rules, ScopedQuery(WeekendSurcharge, req), today, DefaultWeekendSurcharge);
  }

  /** 1970-01-03 and 1970-01-04 were a Saturday and a Sunday; the days from Monday to Friday are not weekend days. */
  lemma WeekendDays(d: Date)
    ensures IsWeekend(2) && IsWeekend(3) && !IsWeekend(4) && !IsWeekend(1)
    ensures IsWeekend(d) <==> (d + 3) % 7 == 5 || (d + 3) % 7 == 6
  {
  }

  /**
   * A weight surcharge needs a weight strictly above 10 kg and an applicable
   * WEIGHT_SURCHARGE rule; there is no default, so without such a rule it is zero.
   */
  lemma WeightSurchargeRule(rules: seq<PricingRule>, req: PricingRequest, today: Date)
    ensures req.weightKg <= 10.0 ==> Quote(rules, req, today).weightSurcharge == 0.0
    ensures NoMatch(rules, WeightQuery(WeightSurcharge, req), today) ==> Quote(rules, req, today).weightSurcharge == 0.0
    ensures req.weightKg > 10.0 ==>
      forall i | IsFirstMatch(rules, WeightQuery(WeightSurcharge, req), today, i) ::
        Quote(rules, req, today).weightSurcharge == rules[i].value
  {
    SelectedValueIsFirstMatch(rules, WeightQuery(WeightSurcharge, req), today, 0.0);
  }

  /**
   * A distance surcharge needs a distance strictly above 50 km and an
   * applicable DISTANCE_SURCHARGE rule; there is no default.
   */
  lemma DistanceSurchargeRule(rules: seq<PricingRule>, req: PricingRequest, today: Date)
    ensures req.distanceKm <= 50.0 ==> Quote(rules, req, today).distanceSurcharge == 0.0
    ensures NoMatch(rules, DistanceQuery(DistanceSurcharge, req), today) ==>
      Quote(rules, req, today).distanceSurcharge == 0.0
    ensures req.distanceKm > 50.0 ==>
      forall i | IsFirstMatch(rules, DistanceQuery(DistanceSurcharge, req), today, i) ::
        Quote(rules, req, today).distanceSurcharge == rules[i].value
  {
    SelectedValueIsFirstMatch(rules, DistanceQuery(DistanceSurcharge, req), today, 0.0);
  }

  /**
   * The subtotal adds the seven components (the per-km rate is not one of
   * them), the tax is a tenth of it rounded half-up to cents, and the total
   * is their sum.
   */
  lemma TotalsAddUp(rules: seq<PricingRule>, req: PricingRequest, today: Date)
    ensures var c := Quote(rules, req, today);
      && c.subtotal == c.baseRate + c.distanceCharge + c.urgentSurcharge + c.afterHoursSurcharge
                       + c.weekendSurcharge + c.weightSurcharge + c.distanceSurcharge
      && c.taxAmount == RoundHalfUp2(c.subtotal * 0.10)
      && IsCents(c.taxAmount)
      && -0.005 <= c.taxAmount - c.subtotal * 0.10 <= 0.005
      && c.total == c.subtotal + c.taxAmount
  {
  }

  /** Every rule value in the table is a whole number of cents. */
  predicate RuleValuesInCents(rules: seq<PricingRule>) {
    forall i | 0 <= i < |rules| :: IsCents(rules[i].value)
  }

  lemma SelectedValueInCents(rules: seq<PricingRule>, q: RuleQuery, today: Date, fallback: real)
    requires RuleValuesInCents(rules) && IsCents(fallback)
    ensures IsCents(SelectedValue(rules, q, today, fallback))
  {
    SelectedValueSource(rules, q, today, fallback);
  }

  /** When every rule value has at most two decimals, so does every component. */
  lemma ComponentsInCents(rules: seq<PricingRule>, req: PricingRequest, today: Date)
    requires RuleValuesInCents(rules)
    ensures IsCents(BaseRateOf(rules, req, today)) && IsCents(DistanceChargeOf(rules, req, today))
    ensures IsCents(UrgentSurchargeOf(rules, req, today)) && IsCents(AfterHoursSurchargeOf(rules, req, today))
    ensures IsCents(WeekendSurchargeOf(rules, req, today)) && IsCents(WeightSurchargeOf(rules, req, today))
    ensures IsCents(DistanceSurchargeOf(rules, req, today))
  {
    assert IsCents(0.0) && IsCents(DefaultBaseRate) && IsCents(DefaultUrgentSurcharge);
    assert IsCents(DefaultAfterHoursSurcharge) && IsCents(DefaultWeekendSurcharge);
    SelectedValueInCents(rules, ScopedQuery(BaseRate, req), today, DefaultBaseRate);
    SelectedValueInCents(rules, ScopedQuery(UrgentSurcharge, req), today, DefaultUrgentSurcharge);
    SelectedValueInCents(rules, ScopedQuery(AfterHoursSurcharge, req), today, DefaultAfterHoursSurcharge);
    SelectedValueInCents(rules, ScopedQuery(WeekendSurcharge, req), today, DefaultWeekendSurcharge);
    SelectedValueInCents(rules, WeightQuery(WeightSurcharge, req), today, 0.0);
    SelectedValueInCents(rules, DistanceQuery(DistanceSurcharge, req), today, 0.0);
  }

  /**
   * When every rule value has at most two decimals, so do the subtotal, the
   * tax and the total: the only other amounts are the defaults and rounded products.
   */
  lemma AmountsInCents(rules: seq<PricingRule>, req: PricingRequest, today: Date)
    requires RuleValuesInCents(rules)
    ensures IsCents(SubtotalOf(rules, req, today))
    ensures IsCents(TaxOf(SubtotalOf(rules, req, today)))
    ensures IsCents(SubtotalOf(rules, req, today) + TaxOf(SubtotalOf(rules, req, today)))
  {
    SubtotalInCents(rules, req, today);
    var subtotal := SubtotalOf(rules, req, today);
    CentsAdd(subtotal, TaxOf(subtotal));
  }

  /** The subtotal of two-decimal rule values has two decimals. */
  lemma SubtotalInCents(rules: seq<PricingRule>, req: PricingRequest, today: Date)
    requires RuleValuesInCents(rules)
    ensures IsCents(SubtotalOf(rules, req, today))
  {
    ComponentsInCents(rules, req, today);
    CentsSum7(BaseRateOf(rules, req, today), DistanceChargeOf(rules, req, today), UrgentSurchargeOf(rules, req, today),
      AfterHoursSurchargeOf(rules, req, today), WeekendSurchargeOf(rules, req, today),
      WeightSurchargeOf(rules, req, today), DistanceSurchargeOf(rules, req, today));
  }

  /** A sum of seven two-decimal amounts has two decimals. */
  lemma CentsSum7(b: real, dc: real, u: real, a: real, w: real, ws: real, ds: real)
    requires IsCents(b) && IsCents(dc) && IsCents(u) && IsCents(a) && IsCents(w) && IsCents(ws) && IsCents(ds)
    ensures IsCents(b + dc + u + a + w + ws + ds)
  {
    CentsAdd(b, dc);
    CentsAdd(b + dc, u);
    CentsAdd(b + dc + u, a);
    CentsAdd(b + dc + u + a, w);
    CentsAdd(b + dc + u + a + w, ws);
    CentsAdd(b + dc + u + a + w + ws, ds);
  }

  /** Every rule value in the table is non-negative. */
  predicate RuleValuesNonNegative(rules: seq<PricingRule>) {
    forall i | 0 <= i < |rules| :: rules[i].value >= 0.0
  }

  lemma SelectedValueNonNegative(rules: seq<PricingRule>, q: RuleQuery, today: Date, fallback: real)
    requires RuleValuesNonNegative(rules) && fallback >= 0.0
    ensures SelectedValue(rules, q, today, fallback) >= 0.0
  {
    SelectedValueSource(rules, q, today, fallback);
  }

  /** With non-negative rule values and distance, every component is non-negative. */
  lemma ComponentsNonNegative(rules: seq<PricingRule>, req: PricingRequest, today: Date)
    requires RuleValuesNonNegative(rules) && req.distanceKm >= 0.0
    ensures BaseRateOf(rules, req, today) >= 0.0 && PerKmRateOf(rules, req, today) >= 0.0
    ensures DistanceChargeOf(rules, req, today) >= 0.0
    ensures UrgentSurchargeOf(rules, req, today) >= 0.0 && AfterHoursSurchargeOf(rules, req, today) >= 0.0
    ensures WeekendSurchargeOf(rules, req, today) >= 0.0 && WeightSurchargeOf(rules, req, today) >= 0.0
    ensures DistanceSurchargeOf(rules, req, today) >= 0.0
  {
    SelectedValueNonNegative(rules, ScopedQuery(BaseRate, req), today, DefaultBaseRate);
    SelectedValueNonNegative(rules, DistanceQuery(PerKmRate, req), today, DefaultPerKmRate);
    SelectedValueNonNegative(rules, ScopedQuery(UrgentSurcharge, req), today, DefaultUrgentSurcharge);
    SelectedValueNonNegative(rules, ScopedQuery(AfterHoursSurcharge, req), today, DefaultAfterHoursSurcharge);
    SelectedValueNonNegative(rules, ScopedQuery(WeekendSurcharge, req), today, DefaultWeekendSurcharge);
    SelectedValueNonNegative(rules, WeightQuery(WeightSurcharge, req), today, 0.0);
    SelectedValueNonNegative(rules, DistanceQuery(DistanceSurcharge, req), today, 0.0);
    var p := PerKmRateOf(rules, req, today);
    assert p * req.distanceKm >= 0.0;
    RoundHalfUp2NonNegative(p * req.distanceKm);
  }

  /** With non-negative rule values and distance, the subtotal and the tax are non-negative and the total is at least the subtotal. */
  lemma AmountsNonNegative(rules: seq<PricingRule>, req: PricingRequest, today: Date)
    requires RuleValuesNonNegative(rules) && req.distanceKm >= 0.0
    ensures Quote(rules, req, today).subtotal >= 0.0
    ensures Quote(rules, req, today).taxAmount >= 0.0
    ensures Quote(rules, req, today).total >= Quote(rules, req, today).subtotal
  {
    ComponentsNonNegative(rules, req, today);
    RoundHalfUp2NonNegative(SubtotalOf(rules, req, today) * TaxRate);
  }

  /**
   * The delivery date matters only through its day of the week being a
   * weekend day or not: rule validity is judged on `today`.
   */
  lemma DeliveryDateOnlyDecidesWeekend(rules: seq<PricingRule>, req: PricingRequest, today: Date, d: Date)
    requires IsWeekend(d) == IsWeekend(req.deliveryTime.date)
    ensures Quote(rules, req.(deliveryTime := DateTime(d, req.deliveryTime.time)), today) == Quote(rules, req, today)
  {
    var req2 := req.(deliveryTime := DateTime(d, req.deliveryTime.time));
    SameTotals(rules, req, req2, today);
  }

  /** Two requests that differ at most in the delivery date, on the same side of the weekend split, get the same subtotal. */
  lemma SameTotals(rules: seq<PricingRule>, req: PricingRequest, req2: PricingRequest, today: Date)
    requires req2 == req.(deliveryTime := DateTime(req2.deliveryTime.date, req.deliveryTime.time))
    requires IsWeekend(req2.deliveryTime.date) == IsWeekend(req.deliveryTime.date)
    ensures DistanceChargeOf(rules, req2, today) == DistanceChargeOf(rules, req, today)
    ensures SubtotalOf(rules, req2, today) == SubtotalOf(rules, req, today)
  {
    SameComponents(rules, req, req2, today);
  }

  /** Two requests that differ at most in the delivery date, within weekdays or within weekend days, get the same components. */
  lemma SameComponents(rules: seq<PricingRule>, req: PricingRequest, req2: PricingRequest, today: Date)
    requires req2 == req.(deliveryTime := DateTime(req2.deliveryTime.date, req.deliveryTime.time))
    requires IsWeekend(req2.deliveryTime.date) == IsWeekend(req.deliveryTime.date)
    ensures BaseRateOf(rules, req2, today) == BaseRateOf(rules, req, today)
    ensures PerKmRateOf(rules, req2, today) == PerKmRateOf(rules, req, today)
    ensures UrgentSurchargeOf(rules, req2, today) == UrgentSurchargeOf(rules, req, today)
    ensures AfterHoursSurchargeOf(rules, req2, today) == AfterHoursSurchargeOf(rules, req, today)
    ensures WeekendSurchargeOf(rules, req2, today) == WeekendSurchargeOf(rules, req, today)
    ensures WeightSurchargeOf(rules, req2, today) == WeightSurchargeOf(rules, req, today)
    ensures DistanceSurchargeOf(rules, req2, today) == DistanceSurchargeOf(rules, req, today)
  {
    forall t: RuleType
      ensures ScopedQuery(t, req2) == ScopedQuery(t, req) && DistanceQuery(t, req2) == DistanceQuery(t, req)
      ensures WeightQuery(t, req2) == WeightQuery(t, req)
    {
    }
  }

  /** A rule valid until 1970-01-05: on that day it sets the base rate, a day later the default applies. */
  function ExpiringBaseRule(): PricingRule {
    NewRule(1, "holiday base rate", BaseRate, 12.00, 7).(validUntil := Some(4))
  }

  function SampleRequest(): PricingRequest {
    PricingRequest(None, None, Some(Normal), 10.0, 1.0, DateTime(4, TimeOf(12, 0, 0)))
  }

  /** The same request priced on two days: validity depends on the pricing day. */
  lemma ValidityJudgedOnToday()
    ensures Quote([ExpiringBaseRule()], SampleRequest(), 4).baseRate == 12.00
    ensures Quote([ExpiringBaseRule()], SampleRequest(), 5).baseRate == 15.00
  {
    var rules := [ExpiringBaseRule()];
    var req := SampleRequest();
    assert IsFirstMatch(rules, ScopedQuery(BaseRate, req), 4, 0);
    BaseAndPerKmRates(rules, req, 4);
    assert NoMatch(rules, ScopedQuery(BaseRate, req), 5);
    BaseAndPerKmRates(rules, req, 5);
  }

  /**
   * With no rules at all: a medical facility's urgent 60 km, 12 kg delivery
   * at 02:00 on a Saturday costs 120.45.
   */
  lemma DefaultsScenario(today: Date)
    ensures var c := Quote([], PricingRequest(None, Some(MedicalFacility), Some(Urgent), 60.0, 12.0,
                                              DateTime(2, TimeOf(2, 0, 0))), today);
      && c.baseRate == 15.00 && c.perKmRate == 1.20 && c.distanceCharge == 72.00
      && c.urgentSurcharge == 5.00 && c.afterHoursSurcharge == 7.50 && c.weekendSurcharge == 10.00
      && c.weightSurcharge == 0.0 && c.distanceSurcharge == 0.0
      && c.subtotal == 109.50 && c.taxAmount == 10.95 && c.total == 120.45
  {
    RoundHalfUp2OfCents(72.00);
    RoundHalfUp2OfCents(10.95);
  }

  /** A global and a customer-specific base rate for customer 9. */
  function GlobalBaseRule(): PricingRule {
    NewRule(1, "standard", BaseRate, 20.00, 7)
  }

  function CustomerBaseRule(): PricingRule {
    NewRule(2, "contract", BaseRate, 25.00, 7).(customerId := Some(9))
  }

  /**
   * Both rules apply to customer 9, and whichever row comes first wins: the
   * calculation has no notion of "most specific rule".
   */
  lemma SelectionFollowsRowOrder(today: Date)
    ensures var req := SampleRequest().(customerId := Some(9));
      && Quote([GlobalBaseRule(), CustomerBaseRule()], req, today).baseRate == 20.00
      && Quote([CustomerBaseRule(), GlobalBaseRule()], req, today).baseRate == 25.00
  {
    var req := SampleRequest().(customerId := Some(9));
    var q := ScopedQuery(BaseRate, req);
    assert IsFirstMatch([GlobalBaseRule(), CustomerBaseRule()], q, today, 0);
    assert IsFirstMatch([CustomerBaseRule(), GlobalBaseRule()], q, today, 0);
    BaseAndPerKmRates([GlobalBaseRule(), CustomerBaseRule()], req, today);
    BaseAndPerKmRates([CustomerBaseRule(), GlobalBaseRule()], req, today);
  }
}
