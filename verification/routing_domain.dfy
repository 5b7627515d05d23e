/** The records of suggestion routing: internal/domain/suggestion.go, rule.go, assignment.go, escalation.go. */
module RoutingDomain {
  import opened Outcomes
  import opened SuggestionStatus

  type Id = nat
  type Time = int

  datatype Item = Item(
    id: Id, externalRef: string, title: string, description: string, citizenName: string, citizenContact: string,
    materials: seq<string>, category: string, keywords: seq<string>, status: ItemStatus,
    lead: string, coDepartments: seq<string>, ruleVersion: int, registeredAt: Time, registeredBy: string,
    deadline: Time, level: int, collectionPointId: string,
    completedAt: Option<Time>, cancelledAt: Option<Time>, cancelReason: string, updatedAt: Time)
  {
    function TransitionTo(to: ItemStatus): Result<Item> {
      if ValidTransition(status, to) then Ok(this.(status := to)) else Err(InvalidTransition)
    }
  }

  datatype RuleStatus = RuleDraft | RuleActive | RuleSuperseded

  datatype Rule = Rule(
    version: int, name: string, matchKeywords: seq<string>, matchCategory: string, lead: string,
    coDepartments: seq<string>, priority: int, isDefault: bool, effectiveFrom: Time, effectiveTo: Option<Time>,
    status: RuleStatus)
  {
    predicate IsActiveAt(t: Time) {
      status == RuleActive && effectiveFrom <= t && (effectiveTo.Some? ==> t < effectiveTo.value)
    }

    /** A default rule fits everything. Any other needs a criterion, and the item must meet each one it has. */
    predicate Fits(item: Item) {
      isDefault
      || ((matchCategory != "" || |matchKeywords| > 0)
          && (matchCategory != "" ==> item.category == matchCategory)
          && (|matchKeywords| > 0 ==> exists k <- matchKeywords :: k in item.keywords))
    }
  }

  datatype Referral = Referral(
    id: Id, itemId: Id, lead: string, coDepartments: seq<string>, ruleVersion: int, adjudicatedAt: Time,
    adjudicatedBy: string, isCurrent: bool)

  datatype Escalation = Escalation(
    id: Id, itemId: Id, fromLevel: int, toLevel: int, oldLead: string, newLead: string, escalatedAt: Time,
    newDeadline: Time)

  function Digit(d: int): char
    requires 0 <= d < 10
  {
    ['0', '1', '2', '3', '4', '5', '6', '7', '8', '9'][d]
  }

  function Decimal(n: nat): string {
    (if n < 10 then "" else Decimal(n / 10)) + [Digit(n % 10)]
  }

  /** The number that a string of decimal digits denotes. */
  function Denoted(s: string): int {
    if s == "" then 0 else 10 * Denoted(s[..|s| - 1]) + (s[|s| - 1] as int - '0' as int)
  }

  lemma DenotedStep(s: string, d: int)
    requires 0 <= d < 10
    ensures '0' <= Digit(d) <= '9' && Denoted(s + [Digit(d)]) == 10 * Denoted(s) + d
    ensures Denoted("") == 0
  {
    assert (s + [Digit(d)])[..|s|] == s;
  }

  lemma DecimalStep(n: nat)
    ensures Decimal(n) == (if n < 10 then "" else Decimal(n / 10)) + [Digit(n % 10)]
  {
  }

  /** A level is written as the digits of its number, without leading zeros. */
  lemma {:induction false} DecimalDenotes(n: nat)
    ensures Denoted(Decimal(n)) == n && (forall c <- Decimal(n) :: '0' <= c <= '9')
    ensures |Decimal(n)| > 0 && (n > 0 ==> Decimal(n)[0] != '0')
  {
    DecimalStep(n);
    if n < 10 {
      DenotedStep("", n);
      assert "" + [Digit(n)] == [Digit(n)];
    } else {
      DecimalDenotes(n / 10);
      hide Digit, Denoted, Decimal;
      DenotedStep(Decimal(n / 10), n % 10);
    }
  }

  function EscalationDepartmentName(base: string, level: int): string {
    if level <= 0 then base else base + "-supervisor-l" + Decimal(level)
  }

  /** The lead after `level` escalations that started from `base`. */
  function Supervised(base: string, level: nat): string {
    if level == 0 then base else EscalationDepartmentName(Supervised(base, level - 1), level)
  }

  /** Every escalation hands the item to a department that never led it before. */
  lemma {:induction false} SupervisorsDiffer(base: string, i: nat, j: nat)
    requires i < j
    ensures |Supervised(base, i)| < |Supervised(base, j)| && Supervised(base, i) <= Supervised(base, j)
  {
    if i < j - 1 {
      SupervisorsDiffer(base, i, j - 1);
    }
    assert |Supervised(base, j)| > |Supervised(base, j - 1)|;
  }
}
