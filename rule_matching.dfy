/**
 * The rule queries of the billing service's rule repository, as predicates
 * over one rule and as an order-preserving filter over a snapshot of the
 * pricing_rules table. None of the queries has an ORDER BY, so the order of
 * a result is the order of the snapshot it was taken from.
 */
module RuleMatching {
  import opened Wrappers
  import opened Common
  import opened PricingRules

  /** The four queries, with their parameters. A `None` parameter is a SQL NULL. */
  datatype RuleQuery =
    | ActiveRulesByType(ruleType: RuleType)
    | ApplicableRules(ruleType: RuleType, customerId: Option<Uuid>,
                      customerType: Option<CustomerType>, priorityLevel: Option<PriorityLevel>)
    | ApplicableRulesByDistance(ruleType: RuleType, customerId: Option<Uuid>,
                                customerType: Option<CustomerType>, priorityLevel: Option<PriorityLevel>,
                                distance: real)
    | ApplicableRulesByWeight(ruleType: RuleType, customerId: Option<Uuid>,
                              customerType: Option<CustomerType>, priorityLevel: Option<PriorityLevel>,
                              weight: real)

  /**
   * `active = true AND (validFrom IS NULL OR validFrom <= :currentDate) AND
   * (validUntil IS NULL OR validUntil >= :currentDate)`: a NULL active flag is not true.
   */
  predicate ValidOn(r: PricingRule, currentDate: Date) {
    && r.active == Some(true)
    && (r.validFrom.None? || r.validFrom.value <= currentDate)
    && (r.validUntil.None? || r.validUntil.value >= currentDate)
  }

  /**
   * `(column IS NULL OR column = :param)`. Comparing with a NULL parameter is
   * never true in SQL, so a NULL parameter admits only NULL columns.
   */
  predicate NullOrEqual<T(==)>(column: Option<T>, param: Option<T>) {
    column.None? || (param.Some? && column.value == param.value)
  }

  /** `(lo IS NULL OR lo <= :x) AND (hi IS NULL OR hi >= :x)`: both bounds inclusive. */
  predicate WithinBounds(lo: Option<real>, hi: Option<real>, x: real) {
    (lo.None? || lo.value <= x) && (hi.None? || hi.value >= x)
  }

  /** The customer, customer-type and priority conditions shared by the three "applicable" queries. */
  predicate ScopeMatches(r: PricingRule, customerId: Option<Uuid>,
                         customerType: Option<CustomerType>, priorityLevel: Option<PriorityLevel>) {
    && NullOrEqual(r.customerId, customerId)
    && NullOrEqual(r.customerType, customerType)
    && NullOrEqual(r.priorityLevel, priorityLevel)
  }

  /** The WHERE clause of query q, evaluated on rule r. */
  predicate Applies(r: PricingRule, q: RuleQuery, currentDate: Date) {
    && ValidOn(r, currentDate)
    && r.ruleType == q.ruleType
    && match q
       case ActiveRulesByType(_) => true
       case ApplicableRules(_, c, ct, p) => ScopeMatches(r, c, ct, p)
       case ApplicableRulesByDistance(_, c, ct, p, d) =>
         ScopeMatches(r, c, ct, p) && WithinBounds(r.minDistanceKm, r.maxDistanceKm, d)
       case ApplicableRulesByWeight(_, c, ct, p, w) =>
         ScopeMatches(r, c, ct, p) && WithinBounds(r.minWeightKg, r.maxWeightKg, w)
  }

  /** The result of query q over the snapshot `rules`: the rules that satisfy it, in snapshot order. */
  function Select(rules: seq<PricingRule>, q: RuleQuery, currentDate: Date): (res: seq<PricingRule>)
    ensures |res| <= |rules|
    ensures forall r :: r in res ==> r in rules && Applies(r, q, currentDate)
  {
    if rules == [] then []
    else (if Applies(rules[0], q, currentDate) then [rules[0]] else []) + Select(rules[1..], q, currentDate)
  }

  /** The result holds exactly the rules of the snapshot that satisfy the query. */
  lemma {:induction false} SelectMembers(rules: seq<PricingRule>, q: RuleQuery, currentDate: Date)
    ensures forall r :: r in Select(rules, q, currentDate) <==> r in rules && Applies(r, q, currentDate)
  {
    if rules != [] {
      SelectMembers(rules[1..], q, currentDate);
      assert forall r :: r in rules <==> r == rules[0] || r in rules[1..];
    }
  }

  /** Querying two parts of a snapshot and concatenating the results is querying the whole: order is kept. */
  lemma {:induction false} SelectAppend(a: seq<PricingRule>, b: seq<PricingRule>, q: RuleQuery, currentDate: Date)
    ensures Select(a + b, q, currentDate) == Select(a, q, currentDate) + Select(b, q, currentDate)
  {
    if a != [] {
      assert (a + b)[1..] == a[1..] + b;
      SelectAppend(a[1..], b, q, currentDate);
    } else {
      assert a + b == b;
    }
  }

  /** No rule of the snapshot satisfies the query. */
  predicate NoMatch(rules: seq<PricingRule>, q: RuleQuery, currentDate: Date) {
    forall j | 0 <= j < |rules| :: !Applies(rules[j], q, currentDate)
  }

  /** rules[i] satisfies the query and no earlier rule of the snapshot does. */
  predicate IsFirstMatch(rules: seq<PricingRule>, q: RuleQuery, currentDate: Date, i: int) {
    && 0 <= i < |rules|
    && Applies(rules[i], q, currentDate)
    && forall j | 0 <= j < i :: !Applies(rules[j], q, currentDate)
  }

  /** A query result is empty exactly when no rule of the snapshot satisfies the query. */
  lemma {:induction false} SelectEmptyIffNoMatch(rules: seq<PricingRule>, q: RuleQuery, currentDate: Date)
    ensures Select(rules, q, currentDate) == [] <==> NoMatch(rules, q, currentDate)
  {
    if rules != [] {
      var tail := rules[1..];
      SelectEmptyIffNoMatch(tail, q, currentDate);
      assert forall j | 0 < j < |rules| :: rules[j] == tail[j - 1];
    }
  }

  /**
   * The head of a query result, which the price calculation takes as "the"
   * rule, is the first rule of the snapshot that satisfies the query.
   */
  lemma {:induction false} SelectHeadIsFirstMatch(rules: seq<PricingRule>, q: RuleQuery, currentDate: Date)
    ensures Select(rules, q, currentDate) != [] ==>
      exists i :: IsFirstMatch(rules, q, currentDate, i) && Select(rules, q, currentDate)[0] == rules[i]
  {
    if rules != [] {
      var tail := rules[1..];
      if !Applies(rules[0], q, currentDate) {
        SelectHeadIsFirstMatch(tail, q, currentDate);
        assert Select(rules, q, currentDate) == Select(tail, q, currentDate);
        if Select(tail, q, currentDate) != [] {
          var i :| IsFirstMatch(tail, q, currentDate, i) && Select(tail, q, currentDate)[0] == tail[i];
          assert rules[i + 1] == tail[i];
          forall j | 0 <= j < i + 1 ensures !Applies(rules[j], q, currentDate) {
            if j > 0 { assert rules[j] == tail[j - 1]; }
          }
          assert IsFirstMatch(rules, q, currentDate, i + 1);
        }
      } else {
        assert IsFirstMatch(rules, q, currentDate, 0);
      }
    }
  }

  /** There is at most one first match. */
  lemma FirstMatchUnique(rules: seq<PricingRule>, q: RuleQuery, currentDate: Date, i: int, k: int)
    requires IsFirstMatch(rules, q, currentDate, i) && IsFirstMatch(rules, q, currentDate, k)
    ensures i == k
  {
  }

  /**
   * Without a customer id in the request only global rules match: a rule
   * scoped to a customer never matches a NULL customer parameter.
   */
  lemma NullCustomerMatchesOnlyGlobalRules(r: PricingRule, q: RuleQuery, currentDate: Date)
    requires !q.ActiveRulesByType? && q.customerId.None?
    ensures Applies(r, q, currentDate) ==> IsGlobal(r)
  {
  }

  /**
   * An absent customer id, customer type or priority level on a rule is a
   * wildcard; a present one must equal the request's value.
   */
  lemma ScopeFieldsAreWildcardsOrEqual(r: PricingRule, q: RuleQuery, currentDate: Date)
    requires q.ApplicableRules?
    ensures Applies(r, q, currentDate) <==>
      && ValidOn(r, currentDate) && r.ruleType == q.ruleType
      && (r.customerId.None? || r.customerId == q.customerId)
      && (r.customerType.None? || r.customerType == q.customerType)
      && (r.priorityLevel.None? || r.priorityLevel == q.priorityLevel)
  {
  }

  /** A rule applies only when it is active, of the requested type, and the date lies in its window. */
  lemma ApplicableRulesAreActiveAndCurrent(r: PricingRule, q: RuleQuery, currentDate: Date)
    requires Applies(r, q, currentDate)
    ensures r.active == Some(true) && r.ruleType == q.ruleType
    ensures r.validFrom.Some? ==> r.validFrom.value <= currentDate
    ensures r.validUntil.Some? ==> currentDate <= r.validUntil.value
  {
  }

  /** Both distance bounds are inclusive: a rule whose range is [d, d] matches distance d. */
  lemma DistanceBoundsInclusive(r: PricingRule, c: Option<Uuid>, ct: Option<CustomerType>,
                                p: Option<PriorityLevel>, d: real, currentDate: Date)
    requires ValidOn(r, currentDate) && ScopeMatches(r, c, ct, p)
    requires r.minDistanceKm == Some(d) && r.maxDistanceKm == Some(d)
    ensures Applies(r, ApplicableRulesByDistance(r.ruleType, c, ct, p, d), currentDate)
    ensures forall e :: e != d ==> !Applies(r, ApplicableRulesByDistance(r.ruleType, c, ct, p, e), currentDate)
  {
  }

  /** Both weight bounds are inclusive: a rule whose range is [w, w] matches weight w. */
  lemma WeightBoundsInclusive(r: PricingRule, c: Option<Uuid>, ct: Option<CustomerType>,
                              p: Option<PriorityLevel>, w: real, currentDate: Date)
    requires ValidOn(r, currentDate) && ScopeMatches(r, c, ct, p)
    requires r.minWeightKg == Some(w) && r.maxWeightKg == Some(w)
    ensures Applies(r, ApplicableRulesByWeight(r.ruleType, c, ct, p, w), currentDate)
    ensures forall e :: e != w ==> !Applies(r, ApplicableRulesByWeight(r.ruleType, c, ct, p, e), currentDate)
  {
  }

  /** No query looks at the time-of-day window or the day of week of a rule. */
  lemma TimeAndDayScopeIgnored(r: PricingRule, start: Option<NanoOfDay>, end: Option<NanoOfDay>,
                               day: Option<string>, q: RuleQuery, currentDate: Date)
    ensures Applies(r, q, currentDate) ==
            Applies(r.(timeOfDayStart := start, timeOfDayEnd := end, dayOfWeek := day), q, currentDate)
  {
  }

  /**
   * The plain "applicable" query ignores both ranges, the distance variant
   * ignores the weight range and the weight variant the distance range.
   */
  lemma RangesIgnoredOutsideTheirVariant(r: PricingRule, minD: Option<real>, maxD: Option<real>,
                                         minW: Option<real>, maxW: Option<real>, q: RuleQuery, currentDate: Date)
    ensures (q.ActiveRulesByType? || q.ApplicableRules?) ==>
      Applies(r, q, currentDate) ==
      Applies(r.(minDistanceKm := minD, maxDistanceKm := maxD, minWeightKg := minW, maxWeightKg := maxW), q, currentDate)
    ensures q.ApplicableRulesByDistance? ==>
      Applies(r, q, currentDate) == Applies(r.(minWeightKg := minW, maxWeightKg := maxW), q, currentDate)
    ensures q.ApplicableRulesByWeight? ==>
      Applies(r, q, currentDate) == Applies(r.(minDistanceKm := minD, maxDistanceKm := maxD), q, currentDate)
  {
  }

  /** "Active rules by type" checks only the flag, the window and the type, none of the scope fields. */
  lemma ActiveRulesByTypeIgnoresScope(r: PricingRule, t: RuleType, currentDate: Date)
    ensures Applies(r, ActiveRulesByType(t), currentDate) <==> ValidOn(r, currentDate) && r.ruleType == t
  {
  }
}
