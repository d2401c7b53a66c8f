# CourierSync core, modelled in Dafny

CourierSync is a courier platform for medical deliveries, made of three
Spring services. This project models the parts of them that decide
something and proves properties of those models:

- **Billing, pricing.** The pricing rules and the four repository queries
  that select them (`RuleMatching`). `calculateDeliveryPrice` fills a
  mutable `PricingCalculation` (`Pricing.PricingService`), and
  `PricingProperties` proves what that calculation promises. `updateRule`
  and `deleteRule` are modelled too.
- **Billing, invoices.** The invoice and invoice-item entities (`Invoices`)
  and `InvoiceService` (`InvoiceServices`): creating an invoice from its
  items, updating it, changing its status, recording a payment and
  deleting it. The hand-written queries and aggregates of
  `InvoiceRepository` are in `InvoiceQueries`.
- **Billing, events.** The billing `EventConsumer` (`BillingEvents`): which
  delivery events lead to an invoice, and how a price calculation becomes
  an invoice header and its ordered items. As written, the consumer's
  priority lookup throws before any invoice is made (see "## Findings"),
  so the model has the handler both as written and as intended.
- **Shared DTOs.** The validity that the Bean Validation annotations give
  `InvoiceItemDto`, `InvoiceDto`, `DeliveryRequestDto` and
  `LocationUpdateDto` (`Constraints`, `InvoiceDtos`, `DeliveryDtos`,
  `LocationDtos`).
- **Dispatch.** `DeliveryOrderService` (`Dispatch`), over an order table of
  heap objects and an append-only status-history table.
- **Tracking.** `DeliveryRouteService` (`Tracking`), over a route collection
  of heap objects with the store's auditing timestamps.

How Java values are modelled:

- `BigDecimal` amounts are `real`s, and `setScale(2, HALF_UP)` is
  `Money.RoundHalfUp2`.
- Dates are epoch days, and times of day are nanoseconds since midnight.
- A nullable field is an `Option`; `None` is SQL NULL or Java `null`.
- An exception a service throws is a `Failure` result. A throwing call
  inside a transaction changes nothing.
- The clocks (`LocalDate.now()`, `LocalDateTime.now()`), the generated
  invoice and order numbers, and the ids the databases assign are
  parameters of the methods that use them.
- Entities whose fields the services set in place are classes (`Invoice`,
  `InvoiceItem`, `DeliveryOrder`, `DeliveryRoute`, `PricingCalculation`).
  Their methods are proved against functions of the old state (`Record()`,
  `Header()`, `Snapshot()`).

The model follows the code as written; in particular:

- A delivery at 18:00:00 exactly is not after hours, because `isAfter` is
  strict (backend/billing-service/src/main/java/com/couriersync/billing/service/PricingService.java:96-97).
- Among matching pricing rules the first row the query returns wins
  (backend/billing-service/src/main/java/com/couriersync/billing/service/PricingService.java:50-51). There is no ranking of
  customer-specific over customer-type over global rules, despite the
  comment on line 50.
- Rule values are used unrounded (backend/billing-service/src/main/java/com/couriersync/billing/service/PricingService.java:51).
- The invoice tax is `subtotal × taxRate` without rounding
  (backend/billing-service/src/main/java/com/couriersync/billing/service/InvoiceService.java:85). Only the pricing tax is rounded
  (backend/billing-service/src/main/java/com/couriersync/billing/service/PricingService.java:177).

## Model

| member | source | states |
|---|---|---|
| Common.TimeOf | backend/billing-service/src/main/java/com/couriersync/billing/service/PricingService.java:96-97 | `LocalTime.of(h, m, s)` is the instant h·3600 + m·60 + s seconds past midnight, on a whole second |
| Common.TimeOfOrder | backend/billing-service/src/main/java/com/couriersync/billing/service/PricingService.java:96-97 | `isBefore`/`isAfter` between such times is the clock-face (lexicographic) order of (h, m, s), in both directions, and equal times have equal fields |
| Common.DayOfWeekOf | backend/billing-service/src/main/java/com/couriersync/billing/service/PricingService.java:116-117 | 1970-01-01 is a Thursday, as `getDayOfWeek` counts |
| Common.WeekRepeats | backend/billing-service/src/main/java/com/couriersync/billing/service/PricingService.java:116-117 | the day of the week repeats every seven days |
| Common.ClockBefore | backend/billing-service/src/main/java/com/couriersync/billing/service/PricingService.java:96-97 | the clock-face order of (hour, minute, second); `TimeOfOrder` proves it is the order of `LocalTime.of` times, both ways |
| Common.Instant | backend/tracking-service/src/main/java/com/couriersync/tracking/repository/DeliveryRouteRepository.java:21 | a `LocalDateTime` as a count of nanoseconds, so comparing instants is `compareTo`; used by the `createdAt` sort |
| Common.PlusDays | backend/billing-service/src/main/java/com/couriersync/billing/service/InvoiceService.java:48 | `LocalDate.plusDays`; `Invoices.DefaultsFillOnlyMissing` proves the default due date is the issue date plus 30 days |
| Money.Cents | backend/billing-service/src/main/java/com/couriersync/billing/service/PricingService.java:48 | k cents is a two-decimal amount whose hundredfold is k |
| Money.RoundHalfUp2 | backend/billing-service/src/main/java/com/couriersync/billing/service/PricingService.java:72-74 | `setScale(2, HALF_UP)` gives a two-decimal amount within half a cent; on a tie it goes away from zero |
| Money.CentsCloserThanACentAreEqual | backend/billing-service/src/main/java/com/couriersync/billing/service/PricingService.java:72-74 | two two-decimal amounts less than a cent apart are equal, so the rounding is determined |
| Money.RoundHalfUp2Unique | backend/billing-service/src/main/java/com/couriersync/billing/service/PricingService.java:72-74 | any two-decimal amount in the HALF_UP window of x is the rounding of x |
| Money.RoundHalfUp2Within | backend/billing-service/src/main/java/com/couriersync/billing/service/PricingService.java:177 | the rounded amount is within half a cent of the exact one |
| Money.RoundHalfUp2OfCents | backend/billing-service/src/main/java/com/couriersync/billing/service/PricingService.java:72-74 | rounding leaves a two-decimal amount unchanged |
| Money.RoundHalfUp2NonNegative | backend/billing-service/src/main/java/com/couriersync/billing/service/PricingService.java:177 | rounding a non-negative amount keeps it non-negative |
| Money.HalfUpRoundsTiesAwayFromZero | backend/billing-service/src/main/java/com/couriersync/billing/service/PricingService.java:74 | 0.125 rounds to 0.13, -0.125 to -0.13, 0.124 to 0.12 |
| Money.CentsAdd | backend/billing-service/src/main/java/com/couriersync/billing/service/PricingService.java:166-172 | sums of two-decimal amounts have two decimals |
| Money.IsCents | backend/billing-service/src/main/java/com/couriersync/billing/service/PricingService.java:74 | an amount with at most two decimals, as `setScale(2, ...)` leaves it; `Money.RoundHalfUp2` ensures its result is one |
| PricingRules.AllRuleTypes | backend/billing-service/src/main/java/com/couriersync/billing/model/PricingRule.java:102-105 | the eight rule types, each once |
| PricingRules.AllCustomerTypes | backend/billing-service/src/main/java/com/couriersync/billing/model/PricingRule.java:107-109 | the three customer types, each once |
| PricingRules.AllPriorityLevels | backend/billing-service/src/main/java/com/couriersync/billing/model/PricingRule.java:111-113 | the four priority levels, each once |
| PricingRules.NewRule | backend/billing-service/src/main/java/com/couriersync/billing/model/PricingRule.java:44-82 | a new rule is active, has unit "FLAT", is global and unscoped, and has an open validity window |
| PricingRules.IsGlobal | backend/billing-service/src/main/java/com/couriersync/billing/repository/PricingRuleRepository.java:37 | a rule without a customer id; `RuleMatching.NullCustomerMatchesOnlyGlobalRules` proves only such rules match a NULL customer |
| PricingRules.IsUnscoped | backend/billing-service/src/main/java/com/couriersync/billing/model/PricingRule.java:44-82 | a rule with none of its ten scope columns set; `PricingRules.NewRule` ensures a new rule is one |
| RuleMatching.Select | backend/billing-service/src/main/java/com/couriersync/billing/repository/PricingRuleRepository.java:26-76 | every rule a query returns is in the table and satisfies the query, and there are no more than the table has; `SelectMembers` gives the converse and `SelectAppend` the table order |
| RuleMatching.SelectMembers | backend/billing-service/src/main/java/com/couriersync/billing/repository/PricingRuleRepository.java:26-76 | a rule is returned exactly when it is in the table and satisfies the WHERE clause |
| RuleMatching.SelectAppend | backend/billing-service/src/main/java/com/couriersync/billing/repository/PricingRuleRepository.java:26-76 | querying two parts of the table and concatenating equals querying the whole, so table order is kept |
| RuleMatching.SelectEmptyIffNoMatch | backend/billing-service/src/main/java/com/couriersync/billing/service/PricingService.java:46 | a result is empty exactly when no rule satisfies the query |
| RuleMatching.SelectHeadIsFirstMatch | backend/billing-service/src/main/java/com/couriersync/billing/service/PricingService.java:51 | the head of a result is the first rule of the table that satisfies the query |
| RuleMatching.FirstMatchUnique | backend/billing-service/src/main/java/com/couriersync/billing/service/PricingService.java:51 | there is at most one first match |
| RuleMatching.NullCustomerMatchesOnlyGlobalRules | backend/billing-service/src/main/java/com/couriersync/billing/repository/PricingRuleRepository.java:37 | with a NULL customer parameter only rules without a customer id match |
| RuleMatching.ScopeFieldsAreWildcardsOrEqual | backend/billing-service/src/main/java/com/couriersync/billing/repository/PricingRuleRepository.java:33-44 | an applicable rule is valid, of the type, and each scope field on it is absent or equal to the request's |
| RuleMatching.ApplicableRulesAreActiveAndCurrent | backend/billing-service/src/main/java/com/couriersync/billing/repository/PricingRuleRepository.java:26-31 | a matching rule is active, of the requested type, and today lies in its validity window |
| RuleMatching.DistanceBoundsInclusive | backend/billing-service/src/main/java/com/couriersync/billing/repository/PricingRuleRepository.java:53-54 | a distance range [d, d] matches d and only d |
| RuleMatching.WeightBoundsInclusive | backend/billing-service/src/main/java/com/couriersync/billing/repository/PricingRuleRepository.java:69-70 | a weight range [w, w] matches w and only w |
| RuleMatching.TimeAndDayScopeIgnored | backend/billing-service/src/main/java/com/couriersync/billing/model/PricingRule.java:71-78 | no query looks at a rule's time-of-day window or day of week |
| RuleMatching.RangesIgnoredOutsideTheirVariant | backend/billing-service/src/main/java/com/couriersync/billing/repository/PricingRuleRepository.java:33-76 | the plain query ignores both ranges, the distance query the weight range, the weight query the distance range |
| RuleMatching.ActiveRulesByTypeIgnoresScope | backend/billing-service/src/main/java/com/couriersync/billing/repository/PricingRuleRepository.java:26-31 | "active rules by type" checks only the flag, the window and the type |
| RuleMatching.ValidOn | backend/billing-service/src/main/java/com/couriersync/billing/repository/PricingRuleRepository.java:26-28 | `active = true` with today inside the inclusive, NULL-open validity window; `ApplicableRulesAreActiveAndCurrent` and `PricingProperties.ValidityJudgedOnToday` prove what it admits |
| RuleMatching.NullOrEqual | backend/billing-service/src/main/java/com/couriersync/billing/repository/PricingRuleRepository.java:37-39 | `column IS NULL OR column = :param`, false for a NULL parameter on a set column; `NullCustomerMatchesOnlyGlobalRules` |
| RuleMatching.WithinBounds | backend/billing-service/src/main/java/com/couriersync/billing/repository/PricingRuleRepository.java:53-54 | `lo IS NULL OR lo <= x` and `hi IS NULL OR hi >= x`; `DistanceBoundsInclusive` and `WeightBoundsInclusive` prove both ends are included |
| RuleMatching.ScopeMatches | backend/billing-service/src/main/java/com/couriersync/billing/repository/PricingRuleRepository.java:37-39 | the customer, customer-type and priority conditions of the three "applicable" queries; `ScopeFieldsAreWildcardsOrEqual` |
| RuleMatching.Applies | backend/billing-service/src/main/java/com/couriersync/billing/repository/PricingRuleRepository.java:26-76 | the WHERE clause of each of the four queries; `SelectMembers` proves a query returns exactly the rules satisfying it |
| RuleMatching.NoMatch | backend/billing-service/src/main/java/com/couriersync/billing/service/PricingService.java:46 | no rule of the table satisfies the query; `SelectEmptyIffNoMatch` proves a result is empty exactly then |
| RuleMatching.IsFirstMatch | backend/billing-service/src/main/java/com/couriersync/billing/service/PricingService.java:51 | a position whose rule satisfies the query and no earlier one does; `SelectHeadIsFirstMatch` and `FirstMatchUnique` |
| Pricing.PricingCalculation.constructor | backend/billing-service/src/main/java/com/couriersync/billing/service/PricingService.java:244-255 | the five surcharges start at zero |
| Pricing.CopyDetails | backend/billing-service/src/main/java/com/couriersync/billing/service/PricingService.java:213-230 | updateRule copies every field except the id and the creator |
| Pricing.UpdatedRules | backend/billing-service/src/main/java/com/couriersync/billing/service/PricingService.java:209-234 | the table after an update: the rule with the id gets the details, every other row is kept |
| Pricing.WithoutRule | backend/billing-service/src/main/java/com/couriersync/billing/service/PricingService.java:236-242 | the table after a delete holds exactly the rules with another id |
| Pricing.DistinctIdsTail | backend/billing-service/src/main/java/com/couriersync/billing/service/PricingService.java:209-242 | the rest of a table with unique ids has unique ids and none equal to the first |
| Pricing.DistinctIdsCons | backend/billing-service/src/main/java/com/couriersync/billing/service/PricingService.java:209-242 | a rule with a new id in front of such a table keeps the ids unique |
| Pricing.WithoutRuleKeepsDistinctIds | backend/billing-service/src/main/java/com/couriersync/billing/service/PricingService.java:236-242 | deleting keeps the ids unique |
| Pricing.UpdatedRulesKeepIds | backend/billing-service/src/main/java/com/couriersync/billing/service/PricingService.java:209-234 | updating changes no id, so the ids stay unique |
| Pricing.PricingService.constructor | backend/billing-service/src/main/java/com/couriersync/billing/service/PricingService.java:21-23 | a service over a table with unique ids |
| Pricing.PricingService.CalculateDeliveryPrice | backend/billing-service/src/main/java/com/couriersync/billing/service/PricingService.java:25-190 | the calculation's fields equal `Quote`, the value form of the calculation |
| Pricing.PricingService.LookUpRates | backend/billing-service/src/main/java/com/couriersync/billing/service/PricingService.java:36-75 | base rate, per-km rate and rounded distance charge are set; the surcharges are zero |
| Pricing.PricingService.AddSurcharges | backend/billing-service/src/main/java/com/couriersync/billing/service/PricingService.java:77-163 | each surcharge is set only under its condition, from its first matching rule or its default |
| Pricing.PricingService.UpdateRule | backend/billing-service/src/main/java/com/couriersync/billing/service/PricingService.java:209-234 | the stored rule receives the details and is returned; an unknown id fails and changes nothing |
| Pricing.PricingService.DeleteRule | backend/billing-service/src/main/java/com/couriersync/billing/service/PricingService.java:236-242 | the rule is removed; an unknown id fails and changes nothing |
| Pricing.IsAfterHours | backend/billing-service/src/main/java/com/couriersync/billing/service/PricingService.java:96-97 | strictly before 08:00 or strictly after 18:00; `PricingProperties.AfterHoursBoundaries` proves the boundary instants |
| Pricing.IsWeekend | backend/billing-service/src/main/java/com/couriersync/billing/service/PricingService.java:116-117 | Saturday or Sunday; `PricingProperties.WeekendDays` |
| Pricing.ScopedQuery | backend/billing-service/src/main/java/com/couriersync/billing/repository/PricingRuleRepository.java:33-44 | the findApplicableRules call for one rule type: the request's customer, customer type and priority |
| Pricing.DistanceQuery | backend/billing-service/src/main/java/com/couriersync/billing/repository/PricingRuleRepository.java:46-60 | the findApplicableRulesByDistance call: the same parameters and the request's distance |
| Pricing.WeightQuery | backend/billing-service/src/main/java/com/couriersync/billing/repository/PricingRuleRepository.java:62-76 | the findApplicableRulesByWeight call: the same parameters and the request's weight |
| Pricing.SelectedValue | backend/billing-service/src/main/java/com/couriersync/billing/service/PricingService.java:46-52 | the value of `get(0)` of a query result, or the fallback when it is empty; `PricingProperties.SelectedValueIsFirstMatch` and `SelectedValueSource` |
| Pricing.BaseRateOf | backend/billing-service/src/main/java/com/couriersync/billing/service/PricingService.java:39-52 | the first applicable BASE_RATE rule's value, else 15.00; `PricingProperties.BaseAndPerKmRates` |
| Pricing.PerKmRateOf | backend/billing-service/src/main/java/com/couriersync/billing/service/PricingService.java:55-69 | the first PER_KM_RATE rule matching the distance, else 1.20; `PricingProperties.BaseAndPerKmRates` |
| Pricing.UrgentSurchargeOf | backend/billing-service/src/main/java/com/couriersync/billing/service/PricingService.java:78-92 | zero unless URGENT, then the first rule or 5.00; `PricingProperties.UrgentSurchargeRule` |
| Pricing.AfterHoursSurchargeOf | backend/billing-service/src/main/java/com/couriersync/billing/service/PricingService.java:94-113 | zero within business hours, else the first rule or 7.50; `PricingProperties.AfterHoursSurchargeRule` |
| Pricing.WeekendSurchargeOf | backend/billing-service/src/main/java/com/couriersync/billing/service/PricingService.java:115-133 | zero on weekdays, else the first rule or 10.00; `PricingProperties.WeekendSurchargeRule` |
| Pricing.WeightSurchargeOf | backend/billing-service/src/main/java/com/couriersync/billing/service/PricingService.java:135-148 | zero up to 10 kg, else the first matching rule, with no default; `PricingProperties.WeightSurchargeRule` |
| Pricing.DistanceSurchargeOf | backend/billing-service/src/main/java/com/couriersync/billing/service/PricingService.java:150-163 | zero up to 50 km, else the first matching rule, with no default; `PricingProperties.DistanceSurchargeRule` |
| Pricing.DistanceCharge | backend/billing-service/src/main/java/com/couriersync/billing/service/PricingService.java:72-74 | rate × distance with `setScale(2, HALF_UP)`; `PricingProperties.DistanceChargeWithin` proves two decimals and the half-cent window |
| Pricing.DistanceChargeOf | backend/billing-service/src/main/java/com/couriersync/billing/service/PricingService.java:71-75 | the distance charge at the selected per-km rate |
| Pricing.SubtotalOf | backend/billing-service/src/main/java/com/couriersync/billing/service/PricingService.java:165-173 | the sum of the seven charged components, without the per-km rate; `PricingProperties.TotalsAddUp` |
| Pricing.TaxOf | backend/billing-service/src/main/java/com/couriersync/billing/service/PricingService.java:175-178 | 10 % of the subtotal rounded half-up; `PricingProperties.TotalsAddUp` proves it is within half a cent of the exact tax |
| Pricing.Quote | backend/billing-service/src/main/java/com/couriersync/billing/service/PricingService.java:25-190 | the calculation as a value; `PricingService.CalculateDeliveryPrice` ensures the mutable calculation ends equal to it, and `PricingProperties` proves its properties |
| Pricing.PricingCalculation.Snapshot | backend/billing-service/src/main/java/com/couriersync/billing/service/PricingService.java:244-255 | the eleven fields of the mutable calculation, compared with `Quote` by `CalculateDeliveryPrice` |
| Pricing.DistinctIds | backend/billing-service/src/main/java/com/couriersync/billing/model/PricingRule.java:27-29 | the primary key: no two rows share an id; `PricingService.Valid` keeps it and `WithoutRuleKeepsDistinctIds`, `UpdatedRulesKeepIds` prove the updates preserve it |
| Pricing.HasRule | backend/billing-service/src/main/java/com/couriersync/billing/service/PricingService.java:211 | `findById` finds a row; `UpdateRule` and `DeleteRule` fail exactly when it does not |
| PricingProperties.SelectedValueIsFirstMatch | backend/billing-service/src/main/java/com/couriersync/billing/service/PricingService.java:46-52 | a component takes the fallback when no rule applies, else the first applicable rule's value |
| PricingProperties.SelectedValueSource | backend/billing-service/src/main/java/com/couriersync/billing/service/PricingService.java:46-52 | a component is its fallback or the value of a rule in the table |
| PricingProperties.BaseAndPerKmRates | backend/billing-service/src/main/java/com/couriersync/billing/service/PricingService.java:39-69 | base rate 15.00 and per-km rate 1.20 by default, else the first matching rule's value |
| PricingProperties.DistanceChargeWithin | backend/billing-service/src/main/java/com/couriersync/billing/service/PricingService.java:72-75 | the distance charge, rate × distance rounded half-up, has two decimals and is within half a cent of the product, for every rate and distance |
| PricingProperties.UrgentSurchargeRule | backend/billing-service/src/main/java/com/couriersync/billing/service/PricingService.java:78-92 | zero unless URGENT; then the first matching rule's value, or 5.00 |
| PricingProperties.AfterHoursSurchargeRule | backend/billing-service/src/main/java/com/couriersync/billing/service/PricingService.java:95-113 | zero unless strictly before 08:00 or after 18:00; then the first matching rule, or 7.50 |
| PricingProperties.AfterHoursBoundaries | backend/billing-service/src/main/java/com/couriersync/billing/service/PricingService.java:96-97 | 08:00:00 and 18:00:00 are business hours; 07:59:59 and just after 18:00 are not |
| PricingProperties.WeekendSurchargeRule | backend/billing-service/src/main/java/com/couriersync/billing/service/PricingService.java:116-133 | zero unless Saturday or Sunday; then the first matching rule, or 10.00 |
| PricingProperties.WeekendDays | backend/billing-service/src/main/java/com/couriersync/billing/service/PricingService.java:116-117 | Saturdays and Sundays are the weekend days |
| PricingProperties.WeightSurchargeRule | backend/billing-service/src/main/java/com/couriersync/billing/service/PricingService.java:136-148 | needs weight > 10 kg and a matching rule; no default |
| PricingProperties.DistanceSurchargeRule | backend/billing-service/src/main/java/com/couriersync/billing/service/PricingService.java:151-163 | needs distance > 50 km and a matching rule; no default |
| PricingProperties.TotalsAddUp | backend/billing-service/src/main/java/com/couriersync/billing/service/PricingService.java:166-182 | the subtotal is the seven components without the per-km rate, the tax is 10 % rounded, and the total is their sum |
| PricingProperties.SelectedValueInCents | backend/billing-service/src/main/java/com/couriersync/billing/service/PricingService.java:46-52 | with two-decimal rule values a selected value has two decimals |
| PricingProperties.ComponentsInCents | backend/billing-service/src/main/java/com/couriersync/billing/service/PricingService.java:39-163 | with two-decimal rule values every component has two decimals |
| PricingProperties.AmountsInCents | backend/billing-service/src/main/java/com/couriersync/billing/service/PricingService.java:166-182 | so do the subtotal, the tax and the total |
| PricingProperties.SelectedValueNonNegative | backend/billing-service/src/main/java/com/couriersync/billing/service/PricingService.java:46-52 | with non-negative rule values a selected value is non-negative |
| PricingProperties.ComponentsNonNegative | backend/billing-service/src/main/java/com/couriersync/billing/service/PricingService.java:39-163 | with non-negative rule values and distance every component is non-negative |
| PricingProperties.AmountsNonNegative | backend/billing-service/src/main/java/com/couriersync/billing/service/PricingService.java:166-182 | the subtotal and tax are non-negative and the total is at least the subtotal |
| PricingProperties.DeliveryDateOnlyDecidesWeekend | backend/billing-service/src/main/java/com/couriersync/billing/service/PricingService.java:44 | the delivery date matters only through weekday versus weekend; validity is judged on today |
| PricingProperties.SameComponents | backend/billing-service/src/main/java/com/couriersync/billing/service/PricingService.java:39-163 | two requests that differ at most in the date, on the same side of the weekend split, get equal components |
| PricingProperties.ValidityJudgedOnToday | backend/billing-service/src/main/java/com/couriersync/billing/repository/PricingRuleRepository.java:33-35 | a rule expiring on a day sets the base rate that day and not the day after |
| PricingProperties.DefaultsScenario | backend/billing-service/src/main/java/com/couriersync/billing/service/PricingService.java:39-182 | with no rules an urgent 60 km, 12 kg Saturday 02:00 delivery costs 120.45 |
| PricingProperties.SelectionFollowsRowOrder | backend/billing-service/src/main/java/com/couriersync/billing/service/PricingService.java:50-51 | of a global and a customer-specific rule, whichever row comes first wins |
| PricingProperties.RuleValuesInCents | backend/billing-service/src/main/java/com/couriersync/billing/model/PricingRule.java:41-42 | every rule value has at most two decimals, the hypothesis of the `...InCents` lemmas |
| PricingProperties.RuleValuesNonNegative | backend/billing-service/src/main/java/com/couriersync/billing/model/PricingRule.java:41-42 | every rule value is non-negative, the hypothesis of the `...NonNegative` lemmas |
| PricingProperties.SubtotalInCents | backend/billing-service/src/main/java/com/couriersync/billing/service/PricingService.java:165-173 | with two-decimal rule values the subtotal has two decimals |
| PricingProperties.SameTotals | backend/billing-service/src/main/java/com/couriersync/billing/service/PricingService.java:165-182 | requests differing only in the date, on the same side of the weekend split, get the same distance charge and subtotal |
| Invoices.InvoiceItem.constructor | backend/billing-service/src/main/java/com/couriersync/billing/model/InvoiceItem.java:39-45 | the builder ignores the field initialisers, so unset fields are null |
| Invoices.Invoice.constructor | backend/billing-service/src/main/java/com/couriersync/billing/model/Invoice.java:45-61 | the builder leaves every field null, status and currency included |
| Invoices.LineTotalOf | backend/billing-service/src/main/java/com/couriersync/billing/service/InvoiceService.java:63-76 | a given line total is kept; otherwise it is computed; it fails exactly when quantity or unit price is missing |
| Invoices.Filled | backend/billing-service/src/main/java/com/couriersync/billing/service/InvoiceService.java:75 | filling sets the line total to the one `LineTotalOf` gives and changes nothing else |
| Invoices.ComputedLineTotalBounds | backend/billing-service/src/main/java/com/couriersync/billing/service/InvoiceService.java:64-73 | under the item bounds a computed line total lies between 0 and unit price × quantity |
| Invoices.DiscountExtremes | backend/billing-service/src/main/java/com/couriersync/billing/service/InvoiceService.java:69-73 | 100 % makes the line free; a zero, negative or missing discount is ignored |
| Invoices.ItemsSubtotalFailsIffAnItemFails | backend/billing-service/src/main/java/com/couriersync/billing/service/InvoiceService.java:59-79 | the item fold fails exactly when some item has neither a line total nor the amounts for one |
| Invoices.ItemsSubtotalIsSum | backend/billing-service/src/main/java/com/couriersync/billing/service/InvoiceService.java:78 | once every item has its line total, the fold is their plain sum |
| Invoices.ItemsSubtotalOfFilled | backend/billing-service/src/main/java/com/couriersync/billing/service/InvoiceService.java:75-78 | filling in line totals does not change the fold's result |
| Invoices.LineTotalsSumNonNegative | backend/billing-service/src/main/java/com/couriersync/billing/service/InvoiceService.java:78 | non-negative line totals sum to a non-negative amount |
| Invoices.DefaultsFillOnlyMissing | backend/billing-service/src/main/java/com/couriersync/billing/service/InvoiceService.java:43-53 | given dates are kept, a missing issue date becomes today, a missing due date the issue date + 30 |
| Invoices.DefaultsIdempotent | backend/billing-service/src/main/java/com/couriersync/billing/service/InvoiceService.java:43-49 | applying the defaults again changes nothing |
| Invoices.TotalsAddUp | backend/billing-service/src/main/java/com/couriersync/billing/service/InvoiceService.java:85-90 | total = subtotal + tax, and nothing is negative for non-negative inputs |
| Invoices.InvoiceTaxIsUnrounded | backend/billing-service/src/main/java/com/couriersync/billing/service/InvoiceService.java:85 | 0.05 at 10 % gives a tax of 0.005 |
| Invoices.ComputedLineTotal | backend/billing-service/src/main/java/com/couriersync/billing/service/InvoiceService.java:65-73 | unit price × quantity, less the discount when it is positive; `ComputedLineTotalBounds` and `DiscountExtremes` |
| Invoices.ItemsSubtotal | backend/billing-service/src/main/java/com/couriersync/billing/service/InvoiceService.java:59-79 | the loop's running subtotal, or the first item's error; `ItemsSubtotalFailsIffAnItemFails` and `ItemsSubtotalIsSum` |
| Invoices.LineTotalsSum | backend/billing-service/src/main/java/com/couriersync/billing/service/InvoiceService.java:78 | the sum of the stored line totals; `ItemsSubtotalIsSum` proves it equals the fold once every item is filled |
| Invoices.InvoiceTax | backend/billing-service/src/main/java/com/couriersync/billing/service/InvoiceService.java:85 | subtotal × tax rate, unrounded; `InvoiceTaxIsUnrounded` exhibits a third decimal |
| Invoices.WithDefaults | backend/billing-service/src/main/java/com/couriersync/billing/service/InvoiceService.java:42-49 | a missing issue date becomes today and a missing due date the issue date plus 30 days; `DefaultsFillOnlyMissing`, `DefaultsIdempotent` |
| Invoices.TotalsFor | backend/billing-service/src/main/java/com/couriersync/billing/service/InvoiceService.java:84-90 | the stored subtotal, tax rate, tax and total; `TotalsAddUp` proves total = subtotal + tax and non-negativity |
| InvoiceServices.ItemContents | backend/billing-service/src/main/java/com/couriersync/billing/service/InvoiceService.java:60 | the contents of an item list, item by item |
| InvoiceServices.SentAtAfter | backend/billing-service/src/main/java/com/couriersync/billing/service/InvoiceService.java:163-165 | an existing sentAt is kept; otherwise it is set exactly on SENT |
| InvoiceServices.FirstSendTime | backend/billing-service/src/main/java/com/couriersync/billing/service/InvoiceService.java:163-165 | the first SENT update's time, when there is one |
| InvoiceServices.SentAtIsFirstSend | backend/billing-service/src/main/java/com/couriersync/billing/service/InvoiceService.java:163-165 | over many status updates sentAt keeps an existing stamp, else takes the first SENT's time |
| InvoiceServices.NoSendNoStamp | backend/billing-service/src/main/java/com/couriersync/billing/service/InvoiceService.java:163-165 | without a SENT update sentAt stays unset |
| InvoiceServices.PrefixStep | backend/billing-service/src/main/java/com/couriersync/billing/service/InvoiceService.java:78 | the running subtotal after one more item adds its line total |
| InvoiceServices.ItemsSubtotalFailurePropagates | backend/billing-service/src/main/java/com/couriersync/billing/service/InvoiceService.java:65-66 | a failing item after a succeeding prefix fails the fold with its own error |
| InvoiceServices.InvoiceService.constructor | backend/billing-service/src/main/java/com/couriersync/billing/service/InvoiceService.java:22-24 | an empty invoice table |
| InvoiceServices.InvoiceService.CreateInvoice | backend/billing-service/src/main/java/com/couriersync/billing/service/InvoiceService.java:35-100 | defaults, number, id; if an item lacks its amounts nothing is stored; else items are linked, line totals filled and summed, and the totals are stored |
| InvoiceServices.InvoiceService.FillDefaults | backend/billing-service/src/main/java/com/couriersync/billing/service/InvoiceService.java:39-53 | the number is set and the header defaults are filled, including a 10 % tax rate |
| InvoiceServices.InvoiceService.SetTotals | backend/billing-service/src/main/java/com/couriersync/billing/service/InvoiceService.java:85-90 | the stored totals are those of the subtotal and the tax rate |
| InvoiceServices.InvoiceService.AddUpItems | backend/billing-service/src/main/java/com/couriersync/billing/service/InvoiceService.java:59-79 | the loop's result is the fold over the items' old contents, each item linked and filled |
| InvoiceServices.InvoiceService.FillLineTotal | backend/billing-service/src/main/java/com/couriersync/billing/service/InvoiceService.java:61-76 | one pass: linked, and a missing line total computed or an error |
| InvoiceServices.InvoiceService.NotStored | backend/billing-service/src/main/java/com/couriersync/billing/service/InvoiceService.java:56 | an invoice without an id is not stored |
| InvoiceServices.InvoiceService.UpdateInvoice | backend/billing-service/src/main/java/com/couriersync/billing/service/InvoiceService.java:122-150 | the header is replaced and number, totals, currency and sentAt are kept; an unknown id fails |
| InvoiceServices.InvoiceService.CopyHeader | backend/billing-service/src/main/java/com/couriersync/billing/service/InvoiceService.java:128-140 | every header field takes the submitted value |
| InvoiceServices.InvoiceService.UpdateInvoiceStatus | backend/billing-service/src/main/java/com/couriersync/billing/service/InvoiceService.java:152-175 | status set, notes overwritten only by non-null notes, sentAt stamped on the first SENT |
| InvoiceServices.InvoiceService.RecordPayment | backend/billing-service/src/main/java/com/couriersync/billing/service/InvoiceService.java:177-195 | PAID with the given method and reference; the payment date defaults to today |
| InvoiceServices.InvoiceService.DeleteInvoice | backend/billing-service/src/main/java/com/couriersync/billing/service/InvoiceService.java:205-213 | the invoice is removed; an unknown id fails and changes nothing |
| InvoiceServices.SentAtAfterAll | backend/billing-service/src/main/java/com/couriersync/billing/service/InvoiceService.java:163-165 | sentAt after a series of status updates; `SentAtIsFirstSend` and `NoSendNoStamp` prove it is the first SENT's time |
| InvoiceQueries.Query | backend/billing-service/src/main/java/com/couriersync/billing/repository/InvoiceRepository.java:27-37 | every row a query returns is in the table and satisfies the query, and there are no more than the table has; `QueryMembers` gives the converse and `QueryAppend` the table order |
| InvoiceQueries.CountByStatus | backend/billing-service/src/main/java/com/couriersync/billing/repository/InvoiceRepository.java:39-40 | a count is at most the table size |
| InvoiceQueries.QueryMembers | backend/billing-service/src/main/java/com/couriersync/billing/repository/InvoiceRepository.java:27-37 | a row is returned exactly when it is in the table and satisfies the WHERE clause |
| InvoiceQueries.QueryAppend | backend/billing-service/src/main/java/com/couriersync/billing/repository/InvoiceRepository.java:27-37 | queries keep table order |
| InvoiceQueries.CountIsQueryLength | backend/billing-service/src/main/java/com/couriersync/billing/repository/InvoiceRepository.java:39-40 | countByStatus is the length of the rows with that status |
| InvoiceQueries.CountWithoutStatus | backend/billing-service/src/main/java/com/couriersync/billing/repository/InvoiceRepository.java:39-40 | the rows with a NULL status, at most the table size |
| InvoiceQueries.CountsPartitionTable | backend/billing-service/src/main/java/com/couriersync/billing/repository/InvoiceRepository.java:39-40 | the five status counts plus the NULL-status rows make the table size |
| InvoiceQueries.SumTotalNullIffNothingSummed | backend/billing-service/src/main/java/com/couriersync/billing/repository/InvoiceRepository.java:42-45 | SUM is NULL exactly when no selected row has a total |
| InvoiceQueries.SumTotalAppend | backend/billing-service/src/main/java/com/couriersync/billing/repository/InvoiceRepository.java:42-45 | the sum over two parts combines the parts' sums |
| InvoiceQueries.SumTotalNonNegative | backend/billing-service/src/main/java/com/couriersync/billing/repository/InvoiceRepository.java:42-45 | non-negative totals have a non-negative sum |
| InvoiceQueries.OverdueNeedsSentAndPastDue | backend/billing-service/src/main/java/com/couriersync/billing/repository/InvoiceRepository.java:32-33 | overdue means SENT and due strictly before the day; not when due that day |
| InvoiceQueries.OverdueIsDueBeforeToday | backend/billing-service/src/main/java/com/couriersync/billing/repository/InvoiceRepository.java:32-37 | overdue on a day equals due between an earlier start and the day before |
| InvoiceQueries.RangesInclusive | backend/billing-service/src/main/java/com/couriersync/billing/repository/InvoiceRepository.java:27-37 | BETWEEN includes both ends, and an empty range selects nothing |
| InvoiceQueries.Between | backend/billing-service/src/main/java/com/couriersync/billing/repository/InvoiceRepository.java:27 | `BETWEEN`, inclusive and false on NULL; `RangesInclusive` |
| InvoiceQueries.Matches | backend/billing-service/src/main/java/com/couriersync/billing/repository/InvoiceRepository.java:27-45 | the WHERE clause of each hand-written query; `QueryMembers`, `OverdueNeedsSentAndPastDue` |
| InvoiceQueries.CombineSums | backend/billing-service/src/main/java/com/couriersync/billing/repository/InvoiceRepository.java:42-45 | the SUM of two parts, where a NULL part adds nothing; `SumTotalAppend` |
| InvoiceQueries.SumTotal | backend/billing-service/src/main/java/com/couriersync/billing/repository/InvoiceRepository.java:42-45 | `SUM(totalAmount)` over the selected rows, NULL when nothing is summed; `SumTotalNullIffNothingSummed`, `SumTotalAppend`, `SumTotalNonNegative` |
| BillingEvents.Concat | backend/billing-service/src/main/java/com/couriersync/billing/consumer/EventConsumer.java:75 | `"..." + s` starts with the literal, and a null operand gives "null" |
| BillingEvents.OptionalComponents | backend/billing-service/src/main/java/com/couriersync/billing/consumer/EventConsumer.java:92-161 | the six optional charges, in the consumer's order |
| BillingEvents.Positive | backend/billing-service/src/main/java/com/couriersync/billing/consumer/EventConsumer.java:92-161 | the charges with a positive amount, in order |
| BillingEvents.ItemsOf | backend/billing-service/src/main/java/com/couriersync/billing/consumer/EventConsumer.java:92-161 | one item per charge |
| BillingEvents.ItemsAreBaseThenPositiveCharges | backend/billing-service/src/main/java/com/couriersync/billing/consumer/EventConsumer.java:79-161 | the items are the base item, then one per positive optional charge in order |
| BillingEvents.AddAllKeepsPositive | backend/billing-service/src/main/java/com/couriersync/billing/consumer/EventConsumer.java:92-161 | the conditional adds append the items of the positive charges |
| BillingEvents.ItemsOfAt | backend/billing-service/src/main/java/com/couriersync/billing/consumer/EventConsumer.java:92-161 | the item at each position is that charge's item |
| BillingEvents.PositiveMembers | backend/billing-service/src/main/java/com/couriersync/billing/consumer/EventConsumer.java:92-161 | every kept charge is a given one with a positive amount |
| BillingEvents.ItemShape | backend/billing-service/src/main/java/com/couriersync/billing/consumer/EventConsumer.java:79-161 | one to seven items; the base item first even at zero; quantity 1, no discount, amount as price and line total |
| BillingEvents.ItemsAreCharges | backend/billing-service/src/main/java/com/couriersync/billing/consumer/EventConsumer.java:79-161 | the per-km rate, subtotal and tax never become items |
| BillingEvents.SumOfAddAll | backend/billing-service/src/main/java/com/couriersync/billing/consumer/EventConsumer.java:92-161 | the adds increase the line-total sum by the positive charges |
| BillingEvents.PositiveSumAt | backend/billing-service/src/main/java/com/couriersync/billing/consumer/EventConsumer.java:92-161 | one step of the positive sum |
| BillingEvents.PositiveSumOfCharges | backend/billing-service/src/main/java/com/couriersync/billing/consumer/EventConsumer.java:92-161 | the positive sum of the six optional charges, written out |
| BillingEvents.ItemsSum | backend/billing-service/src/main/java/com/couriersync/billing/consumer/EventConsumer.java:79-161 | line totals add up to the base rate plus the positive optional charges |
| BillingEvents.ItemsSumToSubtotal | backend/billing-service/src/main/java/com/couriersync/billing/consumer/EventConsumer.java:79-161 | with non-negative optional charges the items add up to the calculation's subtotal |
| BillingEvents.NegativeChargeIsDropped | backend/billing-service/src/main/java/com/couriersync/billing/consumer/EventConsumer.java:92 | a negative charge is dropped, so the items miss the subtotal |
| BillingEvents.QuotedItemsSumToSubtotal | backend/billing-service/src/main/java/com/couriersync/billing/consumer/EventConsumer.java:54-161 | for a quote from non-negative rules the items add up to the quoted subtotal |
| BillingEvents.HeaderShape | backend/billing-service/src/main/java/com/couriersync/billing/consumer/EventConsumer.java:64-76 | a DRAFT at 10 % due 30 days after issue, which createInvoice's defaults keep |
| BillingEvents.AddAllAt | backend/billing-service/src/main/java/com/couriersync/billing/consumer/EventConsumer.java:92-161 | one step of the conditional adds |
| BillingEvents.AddAllUnrolled | backend/billing-service/src/main/java/com/couriersync/billing/consumer/EventConsumer.java:92-161 | the six conditional adds, written out |
| BillingEvents.AddItem | backend/billing-service/src/main/java/com/couriersync/billing/consumer/EventConsumer.java:82-89 | `items.add`: the list's contents gain one item at the end |
| BillingEvents.AddCharge | backend/billing-service/src/main/java/com/couriersync/billing/consumer/EventConsumer.java:92-101 | one `if (amount > 0) items.add(...)` |
| BillingEvents.AddSurcharges | backend/billing-service/src/main/java/com/couriersync/billing/consumer/EventConsumer.java:104-161 | the five surcharge adds, in order |
| BillingEvents.AssembleItems | backend/billing-service/src/main/java/com/couriersync/billing/consumer/EventConsumer.java:79-161 | the built list's contents equal the item list of the calculation |
| BillingEvents.BuildInvoice | backend/billing-service/src/main/java/com/couriersync/billing/consumer/EventConsumer.java:64-76 | a fresh invoice with the header and the 10 % tax rate |
| BillingEvents.PriorityLevelNamed | backend/billing-service/src/main/java/com/couriersync/billing/model/PricingRule.java:111-113 | `PriorityLevel.valueOf(name)` finds only a level with exactly that name, and throws otherwise |
| BillingEvents.PriorityLevelNamedInvertsName | backend/billing-service/src/main/java/com/couriersync/billing/model/PricingRule.java:111-113 | every priority level is found under its own name |
| BillingEvents.PriorityOfStatus | backend/billing-service/src/main/java/com/couriersync/billing/consumer/EventConsumer.java:57 | `valueOf(event.getStatus().name())` yields a level only for a present status named like that level |
| BillingEvents.NoStatusIsAPriority | backend/billing-service/src/main/java/com/couriersync/billing/consumer/EventConsumer.java:57 | no delivery status (CREATED … CANCELLED), and no null status, gives a priority level: the lookup throws for every event |
| BillingEvents.HandleDeliveryEventAsWritten | backend/billing-service/src/main/java/com/couriersync/billing/consumer/EventConsumer.java:29-61 | as written, no event changes the invoice store: a triggering event throws at line 57 and the catch swallows it |
| BillingEvents.HandleDeliveryEvent | backend/billing-service/src/main/java/com/couriersync/billing/consumer/EventConsumer.java:29-47 | as intended, only a completed event with delivery and customer ids stores an invoice, and it is stored as `CreateInvoiceForCompletedDelivery` states, the stored items returned; any other event changes nothing and stores no item |
| BillingEvents.CreateInvoiceForCompletedDelivery | backend/billing-service/src/main/java/com/couriersync/billing/consumer/EventConsumer.java:49-167 | the quote for a medical facility, 10 km, 1 kg, now and the delivery's priority is priced; a fresh invoice is stored under the new id with the consumer's header and totals from its items, which are the quote's positive charges after the base item, stored exactly as built and each linked to the invoice; with non-negative rule values the totals are the quoted subtotal plus tax |
| BillingEvents.StatusName | backend/shared-libs/common-events/src/main/java/com/couriersync/common/events/DeliveryEvent.java:36-37 | `name()` of the six delivery statuses; `NoStatusIsAPriority` proves none is a priority level's name |
| BillingEvents.PriorityName | backend/billing-service/src/main/java/com/couriersync/billing/model/PricingRule.java:111-113 | `name()` of the four priority levels; `PriorityLevelNamedInvertsName` |
| BillingEvents.TriggersInvoice | backend/billing-service/src/main/java/com/couriersync/billing/consumer/EventConsumer.java:33-39 | a "delivery.completed" event with a delivery and a customer id; `HandleDeliveryEvent` ensures no other event changes the store |
| BillingEvents.ChargeItem | backend/billing-service/src/main/java/com/couriersync/billing/consumer/EventConsumer.java:82-89 | an item of quantity 1 whose unit price and line total are the amount; `ItemShape` |
| BillingEvents.BaseItem | backend/billing-service/src/main/java/com/couriersync/billing/consumer/EventConsumer.java:82-89 | the DELIVERY item "Medical Delivery - <order number>" at the base rate; `ItemShape` proves it comes first |
| BillingEvents.AddIfPositive | backend/billing-service/src/main/java/com/couriersync/billing/consumer/EventConsumer.java:92-101 | one `if (amount > 0) items.add(...)`; `AddAllKeepsPositive`, `NegativeChargeIsDropped` |
| BillingEvents.AddAll | backend/billing-service/src/main/java/com/couriersync/billing/consumer/EventConsumer.java:92-161 | the conditional adds one after another; `AddAllKeepsPositive` and `SumOfAddAll` |
| BillingEvents.InvoiceItemsFor | backend/billing-service/src/main/java/com/couriersync/billing/consumer/EventConsumer.java:79-161 | the consumer's item list; `ItemsAreBaseThenPositiveCharges`, `ItemShape`, `ItemsSum` and `ItemsSumToSubtotal` |
| BillingEvents.InvoiceHeaderFor | backend/billing-service/src/main/java/com/couriersync/billing/consumer/EventConsumer.java:64-76 | the consumer's invoice header; `HeaderShape` proves it is a DRAFT due in 30 days that createInvoice's defaults keep |
| BillingEvents.ConsumerRequest | backend/billing-service/src/main/java/com/couriersync/billing/consumer/EventConsumer.java:54-61 | the priced request: the event's customer as a MEDICAL_FACILITY, 10 km, 1 kg, now; `HandleDeliveryEvent` ensures the stored totals are its quote's |
| Constraints.BlankStrings | backend/shared-libs/common-dtos/src/main/java/com/couriersync/common/dto/InvoiceDto.java:21 | `@NotBlank` rejects null, empty and whitespace-only strings |
| Constraints.NullPassesSizeAndRange | backend/shared-libs/common-dtos/src/main/java/com/couriersync/common/dto/InvoiceDto.java:32-33 | null passes every constraint but `@NotNull` and `@NotBlank` |
| Constraints.NotBlank | backend/shared-libs/common-dtos/src/main/java/com/couriersync/common/dto/InvoiceDto.java:21 | `@NotBlank`: present and with a character above U+0020; `BlankStrings` |
| Constraints.SizeAtMost | backend/shared-libs/common-dtos/src/main/java/com/couriersync/common/dto/InvoiceDto.java:22 | `@Size(max)`, passed by null; `NullPassesSizeAndRange` |
| Constraints.SizeBetween | backend/shared-libs/common-dtos/src/main/java/com/couriersync/common/dto/InvoiceDto.java:71 | `@Size(min, max)`, passed by null; `InvoiceDtos.CurrencyRules` |
| Constraints.AtLeast | backend/shared-libs/common-dtos/src/main/java/com/couriersync/common/dto/InvoiceItemDto.java:31 | inclusive `@DecimalMin`, passed by null; `NullPassesSizeAndRange` |
| Constraints.Above | backend/shared-libs/common-dtos/src/main/java/com/couriersync/common/dto/DeliveryRequestDto.java:98 | `@DecimalMin(inclusive = false)`, passed by null; `DeliveryDtos.PackageWeightStrict` |
| Constraints.AtMost | backend/shared-libs/common-dtos/src/main/java/com/couriersync/common/dto/InvoiceItemDto.java:35 | inclusive `@DecimalMax`, passed by null; `NullPassesSizeAndRange` |
| Constraints.IntAtLeast | backend/shared-libs/common-dtos/src/main/java/com/couriersync/common/dto/InvoiceItemDto.java:27 | `@Min` on an Integer, passed by null |
| Constraints.IntAtMost | backend/shared-libs/common-dtos/src/main/java/com/couriersync/common/dto/LocationUpdateDto.java:48 | `@Max` on an Integer, passed by null; `LocationDtos.ReadingBoundsInclusive` |
| InvoiceDtos.NoArgsItem | backend/shared-libs/common-dtos/src/main/java/com/couriersync/common/dto/InvoiceItemDto.java:26-36 | quantity 1 and discount 0 by default, and not valid as it stands |
| InvoiceDtos.NoArgsItemNeedsFourFields | backend/shared-libs/common-dtos/src/main/java/com/couriersync/common/dto/InvoiceItemDto.java:19-40 | with the defaults, type, description, unit price and line total make the item valid |
| InvoiceDtos.ValidItemLineTotalBounds | backend/shared-libs/common-dtos/src/main/java/com/couriersync/common/dto/InvoiceItemDto.java:26-36 | a valid item's computed line total lies between 0 and the gross amount |
| InvoiceDtos.ItemLineTotalNotCrossChecked | backend/shared-libs/common-dtos/src/main/java/com/couriersync/common/dto/InvoiceItemDto.java:38-40 | a valid item may carry a line total other than the computed one |
| InvoiceDtos.AsLineItems | backend/shared-libs/common-dtos/src/main/java/com/couriersync/common/dto/InvoiceItemDto.java:17-43 | one invoice line per DTO |
| InvoiceDtos.ValidItemsAddUp | backend/shared-libs/common-dtos/src/main/java/com/couriersync/common/dto/InvoiceItemDto.java:38-40 | valid items never make createInvoice's fold fail, and their subtotal is non-negative |
| InvoiceDtos.ItemsNotValidated | backend/shared-libs/common-dtos/src/main/java/com/couriersync/common/dto/InvoiceDto.java:87 | the items list plays no part in the invoice's validity |
| InvoiceDtos.NoArgsInvoice | backend/shared-libs/common-dtos/src/main/java/com/couriersync/common/dto/InvoiceDto.java:70-72 | the default currency "USD" meets the currency rules; the object is not valid |
| InvoiceDtos.CurrencyRules | backend/shared-libs/common-dtos/src/main/java/com/couriersync/common/dto/InvoiceDto.java:70-72 | the currency must be present, three characters, not blank |
| InvoiceDtos.NoCrossFieldCheck | backend/shared-libs/common-dtos/src/main/java/com/couriersync/common/dto/InvoiceDto.java:45-68 | a valid invoice may be due before issue and have a total other than subtotal + tax |
| InvoiceDtos.ValidItem | backend/shared-libs/common-dtos/src/main/java/com/couriersync/common/dto/InvoiceItemDto.java:19-40 | every annotation of InvoiceItemDto holds; `ValidItemLineTotalBounds`, `ValidItemsAddUp` |
| InvoiceDtos.AsLineItem | backend/shared-libs/common-dtos/src/main/java/com/couriersync/common/dto/InvoiceItemDto.java:17-43 | the DTO's fields as an invoice line, without the id; `ValidItemsAddUp` |
| InvoiceDtos.ValidInvoice | backend/shared-libs/common-dtos/src/main/java/com/couriersync/common/dto/InvoiceDto.java:21-84 | every annotation of InvoiceDto holds; `ItemsNotValidated`, `CurrencyRules`, `NoCrossFieldCheck` |
| DeliveryDtos.NoArgsRequest | backend/shared-libs/common-dtos/src/main/java/com/couriersync/common/dto/DeliveryRequestDto.java:101-103 | a medical specimen, not temperature controlled, and not valid as it stands |
| DeliveryDtos.EndpointsAreSymmetric | backend/shared-libs/common-dtos/src/main/java/com/couriersync/common/dto/DeliveryRequestDto.java:24-89 | pickup and dropoff carry the same rules |
| DeliveryDtos.ValidCoordinates | backend/shared-libs/common-dtos/src/main/java/com/couriersync/common/dto/DeliveryRequestDto.java:24-80 | both endpoints of a valid request have a non-blank name, and their present coordinates lie in [-90, 90] and [-180, 180] |
| DeliveryDtos.PackageWeightStrict | backend/shared-libs/common-dtos/src/main/java/com/couriersync/common/dto/DeliveryRequestDto.java:98-99 | weight 0 is refused, no weight or any positive one is accepted |
| DeliveryDtos.CoordinateBoundsInclusive | backend/shared-libs/common-dtos/src/main/java/com/couriersync/common/dto/DeliveryRequestDto.java:40-46 | 90 and -180 are accepted, 90.5 is refused, and missing coordinates pass |
| DeliveryDtos.ValidEndpoint | backend/shared-libs/common-dtos/src/main/java/com/couriersync/common/dto/DeliveryRequestDto.java:24-55 | the annotations shared by the pickup and the dropoff fields; `CoordinateBoundsInclusive` |
| DeliveryDtos.ValidRequest | backend/shared-libs/common-dtos/src/main/java/com/couriersync/common/dto/DeliveryRequestDto.java:20-99 | every annotation of DeliveryRequestDto holds; `EndpointsAreSymmetric`, `ValidCoordinates`, `PackageWeightStrict` |
| LocationDtos.ValidUpdateBounds | backend/shared-libs/common-dtos/src/main/java/com/couriersync/common/dto/LocationUpdateDto.java:20-49 | a valid update has a driver and in-range position, speed, heading and battery |
| LocationDtos.MinimalUpdateIsValid | backend/shared-libs/common-dtos/src/main/java/com/couriersync/common/dto/LocationUpdateDto.java:20-33 | a driver and a position suffice; without the driver it is invalid |
| LocationDtos.ReadingBoundsInclusive | backend/shared-libs/common-dtos/src/main/java/com/couriersync/common/dto/LocationUpdateDto.java:41-49 | heading 0 and 360 and battery 0 and 100 pass; 360.5 and 101 do not |
| LocationDtos.ValidUpdate | backend/shared-libs/common-dtos/src/main/java/com/couriersync/common/dto/LocationUpdateDto.java:20-52 | every annotation of LocationUpdateDto holds; `ValidUpdateBounds`, `MinimalUpdateIsValid` |
| Dispatch.EntryFor | backend/dispatch-service/src/main/java/com/couriersync/dispatch/service/DeliveryOrderService.java:180-193 | the history row records the given from-status, or else the previous one |
| Dispatch.StatusChangeEffects | backend/dispatch-service/src/main/java/com/couriersync/dispatch/service/DeliveryOrderService.java:139-155 | any status may follow any; PICKED_UP, DELIVERED, CANCELLED stamp their time, and nothing else changes |
| Dispatch.EntriesOf | backend/dispatch-service/src/main/java/com/couriersync/dispatch/service/DeliveryOrderService.java:158 | one history row per status change |
| Dispatch.HistoryIsAChain | backend/dispatch-service/src/main/java/com/couriersync/dispatch/service/DeliveryOrderService.java:158 | with no from-status given, each row starts where the previous ended, and the last ends at the order's status |
| Dispatch.LastPickupTime | backend/dispatch-service/src/main/java/com/couriersync/dispatch/service/DeliveryOrderService.java:143-145 | the last PICKED_UP change's time, else the earlier value |
| Dispatch.PickupTimeIsLastPickup | backend/dispatch-service/src/main/java/com/couriersync/dispatch/service/DeliveryOrderService.java:143-145 | the pickup time is overwritten by every PICKED_UP |
| Dispatch.DeliveryOrder.constructor | backend/dispatch-service/src/main/java/com/couriersync/dispatch/model/DeliveryOrder.java:93-108 | a new order from the builder, without id, number or status |
| Dispatch.DeliveryOrderService.constructor | backend/dispatch-service/src/main/java/com/couriersync/dispatch/service/DeliveryOrderService.java:25-26 | empty order and history tables |
| Dispatch.DeliveryOrderService.NotStored | backend/dispatch-service/src/main/java/com/couriersync/dispatch/service/DeliveryOrderService.java:39 | an order without an id is not stored |
| Dispatch.DeliveryOrderService.CreateDeliveryOrder | backend/dispatch-service/src/main/java/com/couriersync/dispatch/service/DeliveryOrderService.java:28-52 | stored as CREATED with its number, and one history row from none to CREATED |
| Dispatch.DeliveryOrderService.UpdateDeliveryStatus | backend/dispatch-service/src/main/java/com/couriersync/dispatch/service/DeliveryOrderService.java:133-163 | status and stamp set, one history row; an unknown id or a null status fails and changes nothing |
| Dispatch.DeliveryOrderService.AssignDriver | backend/dispatch-service/src/main/java/com/couriersync/dispatch/service/DeliveryOrderService.java:114-131 | driver and time recorded; a CREATED order becomes ASSIGNED with a history row |
| Dispatch.DeliveryOrderService.UpdateDeliveryOrder | backend/dispatch-service/src/main/java/com/couriersync/dispatch/service/DeliveryOrderService.java:74-112 | endpoints, package and times copied; everything else kept |
| Dispatch.DeliveryOrderService.DeleteDeliveryOrder | backend/dispatch-service/src/main/java/com/couriersync/dispatch/service/DeliveryOrderService.java:165-173 | the order is removed and its history kept; an unknown id fails |
| Dispatch.StampsAfter | backend/dispatch-service/src/main/java/com/couriersync/dispatch/service/DeliveryOrderService.java:142-155 | the switch on the new status: which timestamp it sets, and the reason on CANCELLED with notes |
| Dispatch.StatusChanged | backend/dispatch-service/src/main/java/com/couriersync/dispatch/service/DeliveryOrderService.java:139-155 | the order after one status change; `StatusChangeEffects` proves what changes and that nothing else does |
| Dispatch.Replay | backend/dispatch-service/src/main/java/com/couriersync/dispatch/service/DeliveryOrderService.java:133-163 | the order after a series of status changes; `PickupTimeIsLastPickup` and `HistoryIsAChain` |
| Tracking.LatestExists | backend/tracking-service/src/main/java/com/couriersync/tracking/repository/DeliveryRouteRepository.java:21-22 | every non-empty candidate set has a latest route |
| Tracking.Latest | backend/tracking-service/src/main/java/com/couriersync/tracking/repository/DeliveryRouteRepository.java:21-22 | the lookup returns a candidate that no other was created after |
| Tracking.LatestIsUniqueUpToTies | backend/tracking-service/src/main/java/com/couriersync/tracking/repository/DeliveryRouteRepository.java:21-22 | two latest candidates were created together |
| Tracking.StatusSetEffects | backend/tracking-service/src/main/java/com/couriersync/tracking/service/DeliveryRouteService.java:74-81 | any status may follow any; IN_PROGRESS stamps startedAt only if unset, COMPLETED stamps completedAt every time |
| Tracking.FinalizeIsCompletion | backend/tracking-service/src/main/java/com/couriersync/tracking/service/DeliveryRouteService.java:156-159 | finalizing is a COMPLETED update that also records the actuals |
| Tracking.PointAddedEffects | backend/tracking-service/src/main/java/com/couriersync/tracking/service/DeliveryRouteService.java:110-125 | exactly the point is appended; the route is in progress; a planned route gets startedAt now |
| Tracking.PromotionOverwritesStart | backend/tracking-service/src/main/java/com/couriersync/tracking/service/DeliveryRouteService.java:111-112 | a promotion by a point overwrites a start time a status update would keep |
| Tracking.FirstStart | backend/tracking-service/src/main/java/com/couriersync/tracking/service/DeliveryRouteService.java:77-78 | the start time is the existing one or the first IN_PROGRESS update's |
| Tracking.LastCompletionIsLast | backend/tracking-service/src/main/java/com/couriersync/tracking/service/DeliveryRouteService.java:79-80 | without a COMPLETED the completion time stays; with one it is the last's |
| Tracking.StartedAtIsFirstStart | backend/tracking-service/src/main/java/com/couriersync/tracking/service/DeliveryRouteService.java:77-78 | over many updates startedAt is the first IN_PROGRESS's time |
| Tracking.CompletedAtIsLastCompletion | backend/tracking-service/src/main/java/com/couriersync/tracking/service/DeliveryRouteService.java:79-80 | over many updates completedAt is the last COMPLETED's time |
| Tracking.ReplayKeepsTheRest | backend/tracking-service/src/main/java/com/couriersync/tracking/service/DeliveryRouteService.java:74-81 | status updates touch only the status and the two stamps |
| Tracking.DeliveryRoute.constructor | backend/tracking-service/src/main/java/com/couriersync/tracking/service/DeliveryRouteService.java:34-42 | the builder leaves unset fields null, the point list included |
| Tracking.DeliveryRouteService.constructor | backend/tracking-service/src/main/java/com/couriersync/tracking/service/DeliveryRouteService.java:20-23 | an empty route collection |
| Tracking.DeliveryRouteService.NotStored | backend/tracking-service/src/main/java/com/couriersync/tracking/service/DeliveryRouteService.java:44 | a route without an id is not stored |
| Tracking.DeliveryRouteService.Insert | backend/tracking-service/src/main/java/com/couriersync/tracking/model/DeliveryRoute.java:64-70 | the save assigns the id and stamps createdAt and updatedAt |
| Tracking.DeliveryRouteService.CreateRouteAsWritten | backend/tracking-service/src/main/java/com/couriersync/tracking/service/DeliveryRouteService.java:27-51 | a PLANNED route with the plan and no point list |
| Tracking.DeliveryRouteService.CreateRoute | backend/tracking-service/src/main/java/com/couriersync/tracking/service/DeliveryRouteService.java:27-51 | the same route with an empty point list |
| Tracking.DeliveryRouteService.UpdateRouteStatus | backend/tracking-service/src/main/java/com/couriersync/tracking/service/DeliveryRouteService.java:69-91 | the route's state becomes `StatusSet` of the old; an unknown id fails |
| Tracking.DeliveryRouteService.FinalizeRoute | backend/tracking-service/src/main/java/com/couriersync/tracking/service/DeliveryRouteService.java:150-169 | actuals recorded, COMPLETED, completion time now; an unknown id fails |
| Tracking.DeliveryRouteService.ChooseRoute | backend/tracking-service/src/main/java/com/couriersync/tracking/service/DeliveryRouteService.java:97-108 | none exactly when the driver has no route in progress or planned; else the latest in progress, else the latest planned |
| Tracking.DeliveryRouteService.AddLocationPointToRoute | backend/tracking-service/src/main/java/com/couriersync/tracking/service/DeliveryRouteService.java:93-134 | null result when no route is chosen; the chosen route gets the point, or the call fails with nothing changed if it has no point list |
| Tracking.AppendPoint | backend/tracking-service/src/main/java/com/couriersync/tracking/service/DeliveryRouteService.java:110-128 | a planned route is promoted, the point appended, updatedAt stamped |
| Tracking.FirstPointAsWritten | backend/tracking-service/src/main/java/com/couriersync/tracking/service/DeliveryRouteService.java:34-42 | a route created as written fails on its first point |
| Tracking.FirstPointCorrected | backend/tracking-service/src/main/java/com/couriersync/tracking/service/DeliveryRouteService.java:34-42 | a route created with an empty list takes its first point and is in progress |
| Tracking.PointOf | backend/tracking-service/src/main/java/com/couriersync/tracking/service/DeliveryRouteService.java:116-122 | the route point built from a location update; `AddLocationPointToRoute` ensures it is the appended point |
| Tracking.NotLaterThan | backend/tracking-service/src/main/java/com/couriersync/tracking/repository/DeliveryRouteRepository.java:21 | the order `createdAt: -1` reverses, with a missing timestamp first |
| Tracking.IsLatestIn | backend/tracking-service/src/main/java/com/couriersync/tracking/repository/DeliveryRouteRepository.java:21-22 | a candidate no other was created after; `LatestExists` and `LatestIsUniqueUpToTies` |
| Tracking.StatusSet | backend/tracking-service/src/main/java/com/couriersync/tracking/service/DeliveryRouteService.java:74-81 | the route after updateRouteStatus; `StatusSetEffects` |
| Tracking.Finalized | backend/tracking-service/src/main/java/com/couriersync/tracking/service/DeliveryRouteService.java:156-159 | the route after finalizeRoute; `FinalizeIsCompletion` |
| Tracking.PointAdded | backend/tracking-service/src/main/java/com/couriersync/tracking/service/DeliveryRouteService.java:110-125 | the route after a point is added; `PointAddedEffects`, `PromotionOverwritesStart` |
| Tracking.ReplayStatus | backend/tracking-service/src/main/java/com/couriersync/tracking/service/DeliveryRouteService.java:69-91 | the route after a series of status updates; `StartedAtIsFirstStart`, `CompletedAtIsLastCompletion`, `ReplayKeepsTheRest` |
| Tracking.LastCompletion | backend/tracking-service/src/main/java/com/couriersync/tracking/service/DeliveryRouteService.java:79-80 | the completion time after a series of updates; `LastCompletionIsLast` |
| Tracking.IsLastCompletion | backend/tracking-service/src/main/java/com/couriersync/tracking/service/DeliveryRouteService.java:79-80 | a COMPLETED update with none after it |
| Tracking.Matches | backend/tracking-service/src/main/java/com/couriersync/tracking/repository/DeliveryRouteRepository.java:21 | the query `{ driverId: ?0, status: ?1 }` |
| Tracking.DeliveryRouteService.Candidates | backend/tracking-service/src/main/java/com/couriersync/tracking/repository/DeliveryRouteRepository.java:21 | the ids of the stored routes the query matches |
| Tracking.DeliveryRouteService.CreatedAtOf | backend/tracking-service/src/main/java/com/couriersync/tracking/repository/DeliveryRouteRepository.java:21 | the sort key of every stored route |
| Tracking.DeliveryRouteService.Picks | backend/tracking-service/src/main/java/com/couriersync/tracking/service/DeliveryRouteService.java:96-108 | the latest IN_PROGRESS route, else the latest PLANNED one; `ChooseRoute` ensures it picks such a route |

## Left out

- Kafka sends, the Redis cache, WebSocket broadcasting and all event
  producers are I/O. So are the HTTP controllers and the security
  configuration.
- BillingEvents.HandleDeliveryEvent: the priority level the delivery was
  meant to be priced at is a parameter. The event carries no priority
  level, only a delivery status (see "## Findings").
- The billing consumer reads the clock three times: `LocalDateTime.now()`
  for the price, and `LocalDate.now()` for the issue and due dates. One
  `now` stands for all three.
- The distance, the weight and the delivery time of a pricing request
  are plain values. The source throws a `NullPointerException` on a null
  one, but both callers always supply them: the pricing controller and
  the billing consumer.
- The tracking consumer's Haversine distance estimate is floating-point
  geometry.
- `Double` distances and weights are taken as exact decimals.
  `new BigDecimal(double)` would carry their binary expansions.
- The clocks, the generated invoice and order numbers, and the ids the
  stores assign are parameters. `assignDriver` reads the clock separately
  for the assignment and for the status change; one `now` stands for both.
- Dispatch.DeliveryOrderService.UpdateDeliveryStatus: the source reads the
  clock once for the pickup, delivery or cancellation stamp. It reads it
  again for the history row's `changedAt`, which `@CreatedDate` also
  stamps. One `now` stands for both.
- String lengths count Dafny characters, where `@Size` counts UTF-16 code
  units.
- Persistence mechanics are not modelled: repositories, `save`,
  `findById`, paging, lazy loading, the saving of invoice items, and
  the JPA auditing columns (`@CreatedDate` createdAt, `@LastModifiedDate`
  updatedAt). The tracking store's createdAt and updatedAt stamps are
  modelled because `findLatestByDriverIdAndStatus` sorts on createdAt.
- Column constraints of the database (`nullable = false`, foreign keys)
  are not modelled. The lines below name the places where they would
  refuse a write; the list is not exhaustive.
- InvoiceServices.InvoiceService.CreateInvoice: the first
  `invoiceRepository.save(invoice)` (backend/billing-service/src/main/java/com/couriersync/billing/service/InvoiceService.java:56)
  inserts the row at once, because ids are generated by the database
  (backend/billing-service/src/main/java/com/couriersync/billing/model/Invoice.java:27-28), and it runs before the subtotal, tax
  amount and total are set (backend/billing-service/src/main/java/com/couriersync/billing/service/InvoiceService.java:88-90). Those
  columns are NOT NULL (backend/billing-service/src/main/java/com/couriersync/billing/model/Invoice.java:48-58), so an invoice that
  arrives without totals, such as the one the billing consumer builds or
  a request body without them, would be refused there. The model stores
  the invoice once, with its totals, and does not capture this.
- BillingEvents.HandleDeliveryEvent and
  BillingEvents.CreateInvoiceForCompletedDelivery: the invoice's
  `createdBy` is a NOT NULL column without an auditing annotation
  (backend/billing-service/src/main/java/com/couriersync/billing/model/Invoice.java:90-91).
  The consumer's builder never sets it, so the database would refuse the
  insert. The model's invoice has no createdBy field and does not capture
  that constraint, and neither does InvoiceServices.InvoiceService.CreateInvoice.
- Dispatch.DeliveryOrderService.DeleteDeliveryOrder: the model removes
  the order and keeps its history rows. Each history row refers to its
  order through a non-null `@ManyToOne` without a cascade
  (backend/dispatch-service/src/main/java/com/couriersync/dispatch/model/DeliveryStatusHistory.java:28-30).
  Every created order has at least its CREATED row, so the database would
  refuse the delete on the foreign key. The model does not capture that
  constraint.
- The `findLatestByDriverIdAndStatus` lookup is modelled loosely:
  - Between routes created at the same instant the store may return
    either, so the model picks either.
  - Spring Data's behaviour when a single-result query finds several
    documents is not modelled.
- The simple getters and finders of the services are not modelled:
  `getRouteById`, `getDeliveryOrderById`, `getAllActiveRules`, the
  route-point reads, `findOverdueInvoices` and the like. Neither is the
  plain `createRule` save. Each only delegates to a repository query.
- The MapStruct mappers and `DriverService` only copy fields.
- Tracking.DeliveryRouteService.AddLocationPointToRoute: the promotion of
  a planned route before the `NullPointerException` only happened in
  memory, and the model leaves it out. Nothing is saved on that path.
- InvoiceServices.InvoiceService.CreateInvoice and
  Dispatch.DeliveryOrderService.CreateDeliveryOrder require an object
  without an id. Saving an object that already has one is an update in
  JPA, and that path is not modelled.
- Dispatch.DeliveryOrderService.DeleteDeliveryOrder returns an outcome
  that matches the source's `void`. Its unit test expects a boolean
  instead.
- Test-only APIs that the services do not have (`markInvoiceAsOverdue`,
  `cancelInvoice`) are not modelled.
- Related fields are grouped into datatypes: an order's endpoints, a
  route's plan, an invoice's header. Each group still has exactly the
  fields the source copies.

## Findings

| source | as written | input that shows it | evidently intended | confidence | as-written member | corrected member |
|---|---|---|---|---|---|---|
| backend/tracking-service/src/main/java/com/couriersync/tracking/service/DeliveryRouteService.java:34-42 | createRoute's builder leaves `routePoints` null, so `route.getRoutePoints().add(...)` at line 125 throws a NullPointerException on the first location point of every route createRoute made | createRoute for a driver, then a location update from that driver | the route starts with an empty point list, and the first update appends to it | high (not executed) | Tracking.DeliveryRouteService.CreateRouteAsWritten, Tracking.FirstPointAsWritten | Tracking.DeliveryRouteService.CreateRoute, Tracking.FirstPointCorrected |
| backend/billing-service/src/main/java/com/couriersync/billing/consumer/EventConsumer.java:57 | the price is looked up with `PriorityLevel.valueOf(event.getStatus().name())`, but no delivery status is named like a priority level, so the lookup throws for every event (a null status with a NullPointerException); the catch at lines 44-46 swallows it and no invoice is ever created | a "delivery.completed" event with delivery and customer ids and status DELIVERED | the delivery is priced at its own priority level and its invoice is stored | high (not executed) | BillingEvents.HandleDeliveryEventAsWritten, BillingEvents.NoStatusIsAPriority | BillingEvents.HandleDeliveryEvent |
