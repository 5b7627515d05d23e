/** internal/dispatch/adjudicator.go and the matching of internal/domain/rule.go: which rule routes an item. */
module Adjudication {
  import opened Outcomes
  import opened RoutingDomain

  /** The rule may route the item: it was active when the item was registered, and fits. */
  predicate Eligible(r: Rule, item: Item) {
    r.IsActiveAt(item.registeredAt) && r.Fits(item)
  }

  predicate Outranks(r: Rule, s: Rule) {
    r.priority > s.priority || (r.priority == s.priority && r.version >= s.version)
  }

  /** The (priority, version)-greatest eligible rule. */
  ghost predicate IsBest(rules: seq<Rule>, item: Item, r: Rule) {
    r in rules && Eligible(r, item) && forall s <- rules :: Eligible(s, item) ==> Outranks(r, s)
  }

  ghost predicate DistinctVersions(rules: seq<Rule>) {
    forall r, s :: r in rules && s in rules && r.version == s.version ==> r == s
  }

  /** The best rule does not depend on the order of the rules, nor on how often one is listed. */
  lemma BestIgnoresOrder(rules: seq<Rule>, others: seq<Rule>, item: Item, r: Rule, s: Rule)
    requires DistinctVersions(rules) && forall q :: q in rules <==> q in others
    requires IsBest(rules, item, r) && IsBest(others, item, s)
    ensures r == s
  {
  }

  /** Rule.Matches, with its keyword set and its early exits. */
  method Matches(r: Rule, item: Item) returns (matched: bool)
    ensures matched <==> r.Fits(item)
    ensures r.isDefault ==> matched
    ensures !r.isDefault && r.matchCategory == "" && r.matchKeywords == [] ==> !matched
    ensures !r.isDefault && (r.matchCategory != "" || r.matchKeywords != []) ==>
              (matched <==> (r.matchCategory == "" || item.category == r.matchCategory)
                            && (r.matchKeywords == [] || exists k <- r.matchKeywords :: k in item.keywords))
  {
    if r.isDefault {
      return true;
    }
    matched := false;
    if r.matchCategory != "" {
      if item.category == r.matchCategory {
        matched := true;
      } else {
        return false;
      }
    }
    if |r.matchKeywords| > 0 {
      var found := false;
      var itemKeywords := {};
      for k := 0 to |item.keywords|
        invariant forall w :: w in itemKeywords <==> w in item.keywords[..k]
      {
        itemKeywords := itemKeywords + {item.keywords[k]};
      }
      assert item.keywords[..|item.keywords|] == item.keywords;
      for k := 0 to |r.matchKeywords|
        invariant !found
        invariant forall j :: 0 <= j < k ==> r.matchKeywords[j] !in item.keywords
      {
        if r.matchKeywords[k] in itemKeywords {
          found := true;
          break;
        }
      }
      if !found {
        return false;
      }
      matched := true;
    }
  }

  predicate Ordered(rules: seq<Rule>) {
    forall i, j :: 0 <= i < j < |rules| ==> Outranks(rules[i], rules[j])
  }

  function Insert(r: Rule, sorted: seq<Rule>): (out: seq<Rule>)
    requires Ordered(sorted)
    ensures Ordered(out) && multiset(out) == multiset(sorted) + multiset{r}
    ensures forall s :: s in out <==> s == r || s in sorted
  {
    if sorted == [] then [r]
    else if Outranks(r, sorted[0]) then
      assert forall j :: 0 <= j < |sorted| ==> Outranks(sorted[0], sorted[j]) || j == 0;
      [r] + sorted
    else
      assert sorted == [sorted[0]] + sorted[1..];
      var rest := Insert(r, sorted[1..]);
      assert forall s <- rest :: Outranks(sorted[0], s);
      [sorted[0]] + rest
  }

  /** sort.Slice by priority, then version, both descending. */
  method SortByRank(rules: seq<Rule>) returns (sorted: seq<Rule>)
    ensures Ordered(sorted) && multiset(sorted) == multiset(rules)
    ensures forall r :: r in sorted <==> r in rules
    ensures forall i, j :: 0 <= i < j < |sorted| ==>
              sorted[j].priority < sorted[i].priority
              || (sorted[j].priority == sorted[i].priority && sorted[j].version <= sorted[i].version)
  {
    sorted := [];
    for i := 0 to |rules|
      invariant Ordered(sorted) && multiset(sorted) == multiset(rules[..i])
      invariant forall r :: r in sorted <==> r in rules[..i]
    {
      assert rules[..i + 1] == rules[..i] + [rules[i]];
      sorted := Insert(rules[i], sorted);
    }
    assert rules[..|rules|] == rules;
  }

  /** The referral that a chosen rule gives an item. */
  function ReferralBy(r: Rule, id: Id, itemId: Id, now: Time): Referral {
    Referral(id, itemId, r.lead, r.coDepartments, r.version, now, "system", true)
  }

  /** Fails exactly when no rule is both active at the item's registration and fitting. Otherwise the one of the
      highest priority routes the item, and among those the one of the highest version. */
  method Adjudicate(id: Id, item: Item, rules: seq<Rule>, now: Time)
      returns (result: Result<Referral>, ghost chosen: Option<Rule>)
    ensures result.Ok? <==> exists r <- rules :: Eligible(r, item)
    ensures result.Err? ==> result.error == NoMatchingRule && chosen == None
    ensures result.Ok? ==> chosen.Some? && IsBest(rules, item, chosen.value)
    ensures result.Ok? ==>
              var c := chosen.value;
              && c in rules && c.status == RuleActive && c.effectiveFrom <= item.registeredAt
              && (c.effectiveTo.Some? ==> item.registeredAt < c.effectiveTo.value) && c.Fits(item)
              && result.value == Referral(id, item.id, c.lead, c.coDepartments, c.version, now, "system", true)
    ensures forall s <- rules ::
              s.status == RuleActive && s.effectiveFrom <= item.registeredAt
              && (s.effectiveTo.Some? ==> item.registeredAt < s.effectiveTo.value) && s.Fits(item)
              ==> result.Ok? && (s.priority < chosen.value.priority
                                 || (s.priority == chosen.value.priority && s.version <= chosen.value.version))
  {
    var matched: seq<Rule> := [];
    for k := 0 to |rules|
      invariant forall r :: r in matched <==> r in rules[..k] && Eligible(r, item)
    {
      if !rules[k].IsActiveAt(item.registeredAt) {
        continue;
      }
      var fits := Matches(rules[k], item);
      if fits {
        matched := matched + [rules[k]];
      }
    }
    assert rules[..|rules|] == rules;
    if |matched| == 0 {
      // A default rule that is active would have matched: this search finds nothing.
      for k := 0 to |rules|
        invariant matched == [] && forall j :: 0 <= j < |rules| ==> !Eligible(rules[j], item)
      {
        if rules[k].IsActiveAt(item.registeredAt) && rules[k].isDefault {
          assert false;
        }
      }
    }
    if |matched| == 0 {
      assert forall r <- rules :: !Eligible(r, item);
      return Err(NoMatchingRule), None;
    }
    var sorted := SortByRank(matched);
    assert matched[0] in sorted;
    var best := sorted[0];
    assert best in matched;
    assert forall s <- rules :: Eligible(s, item) ==> s in sorted && Outranks(best, s);
    return Ok(Referral(id, item.id, best.lead, best.coDepartments, best.version, now, "system", true)), Some(best);
  }
}
