/** The rules table, internal/service/rule_service.go, and what a query for the active rules may leave out. */
module RuleTables {
  import opened Outcomes
  import opened RoutingDomain
  import opened Adjudication
  import opened Queries

  type Table = map<int, Rule>

  /** SELECT COALESCE(MAX(version), 0). */
  ghost predicate IsCurrentVersion(rules: Table, v: int) {
    if rules == map[] then v == 0 else v in rules && forall w :: w in rules ==> w <= v
  }

  /** The versions are exactly 1, 2, ..., n. */
  ghost predicate VersionsExact(rules: Table) {
    forall v {:trigger v in rules} :: v in rules <==> 1 <= v <= |rules|
  }

  ghost predicate Keyed(rules: Table) {
    forall v :: v in rules ==> rules[v].version == v
  }

  /** Only superseding a rule ever ends it, and that makes it inactive. */
  ghost predicate OpenEnded(rules: Table) {
    forall v :: v in rules && rules[v].status == RuleActive ==> rules[v].effectiveTo.None?
  }

  ghost predicate StartedBy(rules: Table, now: Time) {
    forall v :: v in rules ==> rules[v].effectiveFrom <= now
  }

  ghost predicate Sound(rules: Table, now: Time) {
    VersionsExact(rules) && Keyed(rules) && OpenEnded(rules) && StartedBy(rules, now)
  }

  function Superseded(rules: Table, version: int, at: Time): Table {
    if version in rules then rules[version := rules[version].(status := RuleSuperseded, effectiveTo := Some(at))]
        else rules
  }

  /** CreateRule's transaction: supersede, if asked to, then insert under a primary key. */
  function DoCreateRule(rules: Table, rule: Rule, supersede: int, at: Time): Result<Table> {
    var ended := if supersede > 0 then Superseded(rules, supersede, at) else rules;
    if rule.version in ended then Err(ConstraintViolated) else Ok(ended[rule.version := rule])
  }

  lemma CurrentIsCount(rules: Table, v: int)
    requires VersionsExact(rules) && IsCurrentVersion(rules, v)
    ensures v == |rules|
  {
    if rules != map[] {
      assert |rules| in rules;
    }
  }

  /** A rule is created iff its version is free, and then there is one more. */
  lemma CreationAdds(rules: Table, rule: Rule, supersede: int, at: Time)
    ensures var r := DoCreateRule(rules, rule, supersede, at);
            && (r.Ok? <==> rule.version !in rules)
            && (r.Ok? ==> r.value.Keys == rules.Keys + {rule.version} && |r.value| == |rules| + 1)
  {
    var r := DoCreateRule(rules, rule, supersede, at);
    if r.Ok? {
      assert r.value.Keys == rules.Keys + {rule.version};
      assert |r.value.Keys| == |rules.Keys| + 1;
    }
  }

  lemma ExactTablesNest(read: Table, rules: Table)
    requires VersionsExact(read) && VersionsExact(rules) && read.Keys <= rules.Keys
    ensures |read| + 1 !in rules <==> |read| == |rules|
  {
    if |read| > 0 {
      assert |read| in read;
    }
  }

  lemma OneMoreIsExact(rules: Table, made: Table)
    requires VersionsExact(rules) && made.Keys == rules.Keys + {|rules| + 1} && |made| == |rules| + 1
    ensures VersionsExact(made)
  {
    forall v
      ensures v in made <==> 1 <= v <= |made|
    {
      assert v in made <==> v in rules || v == |rules| + 1;
    }
  }

  /** A creation decided on an older table commits exactly when no rule has been created since. */
  lemma StaleCreation(read: Table, rules: Table, v: int, rule: Rule, supersede: int, at: Time)
    requires VersionsExact(read) && VersionsExact(rules) && read.Keys <= rules.Keys
    requires IsCurrentVersion(read, v) && rule.version == v + 1
    ensures DoCreateRule(rules, rule, supersede, at).Ok? <==> |read| == |rules|
    ensures var r := DoCreateRule(rules, rule, supersede, at);
            r.Ok? ==> VersionsExact(r.value) && |r.value| == |rules| + 1 && rules.Keys <= r.value.Keys
  {
    CurrentIsCount(read, v);
    CreationAdds(rules, rule, supersede, at);
    ExactTablesNest(read, rules);
    var r := DoCreateRule(rules, rule, supersede, at);
    if r.Ok? {
      OneMoreIsExact(rules, r.value);
    }
  }

  /** The tables that rule creation can pass through when every creator numbers its rule after some earlier
      table it has read. */
  ghost predicate Grown(tables: seq<Table>) {
    |tables| > 0 && tables[0] == map[]
    && forall k {:trigger Created(tables, k)} :: 0 <= k < |tables| - 1 ==> Created(tables, k)
  }

  ghost predicate Created(tables: seq<Table>, k: nat)
    requires k + 1 < |tables|
  {
    exists j: nat, v: int, rule: Rule, supersede: int, at: Time ::
      j <= k && IsCurrentVersion(tables[j], v) && rule.version == v + 1
      && DoCreateRule(tables[k], rule, supersede, at) == Ok(tables[k + 1])
  }

  lemma EmptyTableExact()
    ensures VersionsExact(map[])
  {
  }

  /** Versions are exactly 1..n in every table, whatever the creators had read. */
  lemma {:induction false} VersionsStayExact(tables: seq<Table>, k: nat)
    requires Grown(tables) && k < |tables|
    ensures VersionsExact(tables[k]) && |tables[k]| == k
    ensures forall j :: 0 <= j <= k ==> VersionsExact(tables[j]) && tables[j].Keys <= tables[k].Keys
  {
    hide DoCreateRule, VersionsExact, IsCurrentVersion;
    if k == 0 {
      EmptyTableExact();
    } else {
      VersionsStayExact(tables, k - 1);
      assert Created(tables, k - 1);
      var j: nat, v: int, rule: Rule, supersede: int, at: Time :|
        j <= k - 1 && IsCurrentVersion(tables[j], v) && rule.version == v + 1
        && DoCreateRule(tables[k - 1], rule, supersede, at) == Ok(tables[k]);
      StaleCreation(tables[j], tables[k - 1], v, rule, supersede, at);
    }
  }

  /******* Queries *******/

  /** GetActiveRules: the tests of its WHERE clause. */
  predicate ActiveAt(r: Rule, now: Time) {
    r.status == RuleActive && r.effectiveFrom <= now && (r.effectiveTo.None? || r.effectiveTo.value > now)
  }

  ghost predicate IsListOf(rules: Table, now: Time, list: seq<Rule>) {
    forall r :: r in list <==> exists v :: v in rules && rules[v] == r && ActiveAt(r, now)
  }

  lemma RowsListed(rules: Table, now: Time, versions: seq<int>, list: seq<Rule>)
    requires forall v :: v in versions <==> v in rules && ActiveAt(rules[v], now)
    requires forall k {:trigger versions[k]} :: 0 <= k < |versions| ==>
               versions[k] in rules && ActiveAt(rules[versions[k]], now)
    requires |list| == |versions| && forall k :: 0 <= k < |list| ==> list[k] == rules[versions[k]]
    ensures IsListOf(rules, now, list)
  {
    forall v | v in rules && ActiveAt(rules[v], now)
      ensures rules[v] in list
    {
      var k :| 0 <= k < |versions| && versions[k] == v;
      assert list[k] == rules[v];
    }
    forall r | r in list
      ensures exists v :: v in rules && rules[v] == r && ActiveAt(r, now)
    {
      var k :| 0 <= k < |list| && list[k] == r;
      var v := versions[k];
      assert v in rules && rules[v] == r && ActiveAt(r, now);
    }
  }

  lemma ListedOnce(rules: Table, versions: seq<int>, rows: seq<Rule>, list: seq<Rule>)
    requires Distinct(versions) && |rows| == |versions| && multiset(list) == multiset(rows)
    requires forall k :: 0 <= k < |versions| ==> versions[k] in rules && rows[k] == rules[versions[k]]
    ensures Keyed(rules) ==> Distinct(list)
  {
    SamePermuted(rows, list);
    if Keyed(rules) {
      assert forall k :: 0 <= k < |rows| ==> rows[k].version == versions[k];
    }
  }

  /** In terms of the columns: the rules of the table that are active and have begun and not ended, none before one
      of higher priority, nor of the same and higher version. */
  ghost predicate BestFirst(rules: Table, now: Time, list: seq<Rule>) {
    && (forall r <- list :: r.status == RuleActive && r.effectiveFrom <= now
                            && (r.effectiveTo.None? || now < r.effectiveTo.value)
                            && exists v :: v in rules && rules[v] == r)
    && (forall v ::
          v in rules && rules[v].status == RuleActive && rules[v].effectiveFrom <= now
          && (rules[v].effectiveTo.None? || now < rules[v].effectiveTo.value)
          ==> rules[v] in list)
    && (forall i, j :: 0 <= i < j < |list| ==>
          list[j].priority < list[i].priority
          || (list[j].priority == list[i].priority && list[j].version <= list[i].version))
  }

  lemma ListedIsBestFirst(rules: Table, now: Time, list: seq<Rule>)
    requires IsListOf(rules, now, list) && Ordered(list)
    ensures BestFirst(rules, now, list)
  {
    assert forall v :: v in rules && ActiveAt(rules[v], now) ==> rules[v] in list;
  }

  /** The active rules, each once, in the order of rank. */
  method GetActiveRules(rules: Table, now: Time) returns (list: seq<Rule>)
    ensures IsListOf(rules, now, list) && Ordered(list)
    ensures Keyed(rules) ==> Distinct(list)
    ensures BestFirst(rules, now, list)
  {
    hide BestFirst;
    var rank := map v | v in rules && ActiveAt(rules[v], now) :: By(-rules[v].priority);
    var versions := Order(rank);
    assert forall k :: 0 <= k < |versions| ==> versions[k] in versions && versions[k] in rank;
    var rows := seq(|versions|, k requires 0 <= k < |versions| => rules[versions[k]]);
    RowsListed(rules, now, versions, rows);
    list := SortByRank(rows);
    ListedOnce(rules, versions, rows, list);
    ListedIsBestFirst(rules, now, list);
  }

  /** The best rule of the whole table. */
  ghost predicate IsBestOf(rules: Table, item: Item, r: Rule) {
    (exists v :: v in rules && rules[v] == r) && Eligible(r, item)
    && forall v :: v in rules && Eligible(rules[v], item) ==> Outranks(r, rules[v])
  }

  /** In terms of the columns: of the rules that were active when the item was registered and fit it, no other has
      a higher priority, nor the same and a higher version. */
  ghost predicate Routes(rules: Table, item: Item, r: Rule) {
    && (exists v :: v in rules && rules[v] == r)
    && r.status == RuleActive && r.effectiveFrom <= item.registeredAt
    && (r.effectiveTo.Some? ==> item.registeredAt < r.effectiveTo.value) && r.Fits(item)
    && forall v ::
         v in rules && rules[v].status == RuleActive && rules[v].effectiveFrom <= item.registeredAt
         && (rules[v].effectiveTo.Some? ==> item.registeredAt < rules[v].effectiveTo.value) && rules[v].Fits(item)
         ==> rules[v].priority < r.priority || (rules[v].priority == r.priority && rules[v].version <= r.version)
  }

  ghost predicate SomeEligible(rules: Table, item: Item) {
    exists v :: v in rules && Eligible(rules[v], item)
  }

  /** A rule the item could use is missing from the list: it was active at registration and has ended since. */
  ghost predicate EndedSince(rules: Table, item: Item, now: Time) {
    exists v :: v in rules && Eligible(rules[v], item) && rules[v].effectiveTo.Some?
        && rules[v].effectiveTo.value <= now
  }

  /** Adjudicating over the active rules is adjudicating over the whole table, unless a rule the item could
      use has ended in between. In particular always at registration, when `now` is the registration time. */
  lemma QueryIsTransparent(rules: Table, item: Item, now: Time, list: seq<Rule>)
    requires IsListOf(rules, now, list) && item.registeredAt <= now
    ensures (forall v :: v in rules && Eligible(rules[v], item) ==> rules[v] in list) <==> !EndedSince(rules, item, now)
    ensures item.registeredAt == now || OpenEnded(rules) ==> !EndedSince(rules, item, now)
    ensures !EndedSince(rules, item, now) ==>
              ((exists r <- list :: Eligible(r, item)) <==> SomeEligible(rules, item))
              && forall r :: IsBest(list, item, r) <==> IsBestOf(rules, item, r)
  {
    forall v | v in rules && Eligible(rules[v], item)
      ensures rules[v] in list <==> !(rules[v].effectiveTo.Some? && rules[v].effectiveTo.value <= now)
    {
      assert rules[v] in list <==> ActiveAt(rules[v], now);
    }
    if !EndedSince(rules, item, now) {
      forall r
        ensures IsBest(list, item, r) <==> IsBestOf(rules, item, r)
      {
        BestInListIsBest(rules, item, now, list, r);
      }
    }
  }

  lemma BestInListIsBest(rules: Table, item: Item, now: Time, list: seq<Rule>, r: Rule)
    requires IsListOf(rules, now, list)
    requires forall v :: v in rules && Eligible(rules[v], item) ==> rules[v] in list
    ensures IsBest(list, item, r) <==> IsBestOf(rules, item, r)
  {
  }

  method GetCurrentRuleVersion(rules: Table) returns (v: int)
    ensures IsCurrentVersion(rules, v)
  {
    var rank := map w | w in rules :: By(-w);
    var greatest := OrderAndLimit(rank, 1);
    assert forall w :: w in rules ==> w in rank && (w in greatest || |greatest| == 1);
    if |greatest| == 0 {
      assert rules.Keys == {};
      return 0;
    }
    v := greatest[0];
    assert v in greatest;
  }

  /** The new table has the new rule under its version, has ended the rule to be superseded, if there is one, and
      has every other rule as it was. */
  ghost predicate Adds(rules: Table, made: Table, rule: Rule, supersede: int, at: Time) {
    && made.Keys == rules.Keys + {rule.version} && made[rule.version] == rule
    && forall v :: v in rules && v != rule.version ==>
         made[v] == if v == supersede > 0 then rules[v].(status := RuleSuperseded, effectiveTo := Some(at))
             else rules[v]
  }

  lemma CreationKeepsRows(rules: Table, rule: Rule, supersede: int, at: Time, made: Table)
    requires Keyed(rules) && OpenEnded(rules) && StartedBy(rules, at)
    requires rule.effectiveTo.None? && rule.effectiveFrom <= at && DoCreateRule(rules, rule, supersede, at) == Ok(made)
    ensures Keyed(made) && OpenEnded(made) && StartedBy(made, at)
    ensures Adds(rules, made, rule, supersede, at)
  {
  }

  lemma CreationFails(rules: Table, rule: Rule, supersede: int, at: Time)
    ensures DoCreateRule(rules, rule, supersede, at).Err? ==>
            DoCreateRule(rules, rule, supersede, at).error == ConstraintViolated
  {
  }

  lemma CreatedAppends(tables: seq<Table>, j: nat, v: int, rule: Rule, supersede: int, at: Time, next: Table)
    requires Grown(tables) && j < |tables| && IsCurrentVersion(tables[j], v) && rule.version == v + 1
    requires DoCreateRule(tables[|tables| - 1], rule, supersede, at) == Ok(next)
    ensures Grown(tables + [next])
  {
    forall k | 0 <= k < |tables|
      ensures Created(tables + [next], k)
    {
      if k < |tables| - 1 {
        assert Created(tables, k);
        var i: nat, w: int, r: Rule, ended: int, t: Time :|
          i <= k && IsCurrentVersion(tables[i], w) && r.version == w + 1
          && DoCreateRule(tables[k], r, ended, t) == Ok(tables[k + 1]);
        assert IsCurrentVersion((tables + [next])[i], w);
        assert DoCreateRule((tables + [next])[k], r, ended, t) == Ok((tables + [next])[k + 1]);
      } else {
        assert IsCurrentVersion((tables + [next])[j], v);
        assert DoCreateRule((tables + [next])[k], rule, supersede, at) == Ok((tables + [next])[k + 1]);
      }
    }
  }

  lemma GrownIsExact(tables: seq<Table>)
    requires Grown(tables)
    ensures 0 < |tables| && VersionsExact(tables[|tables| - 1])
  {
    VersionsStayExact(tables, |tables| - 1);
  }

  /** What becomes of a rule numbered after the table `read` when it meets the last one. */
  lemma CreationMeets(tables: seq<Table>, read: nat, v: int, rule: Rule, supersede: int, at: Time)
    requires Grown(tables) && read < |tables| && IsCurrentVersion(tables[read], v) && rule.version == v + 1
    requires var rules := tables[|tables| - 1]; Keyed(rules) && OpenEnded(rules) && StartedBy(rules, at)
    requires rule.effectiveTo.None? && rule.effectiveFrom <= at
    ensures var rules := tables[|tables| - 1]; var r := DoCreateRule(rules, rule, supersede, at);
            && VersionsExact(rules)
            && (r.Ok? <==> read == |tables| - 1)
            && (r.Err? ==> r.error == ConstraintViolated)
            && (r.Ok? ==> rule.version == |tables| && Grown(tables + [r.value]) && VersionsExact(r.value)
                          && Keyed(r.value) && OpenEnded(r.value) && StartedBy(r.value, at)
                          && Adds(rules, r.value, rule, supersede, at))
  {
    hide IsCurrentVersion, VersionsExact, DoCreateRule, Keyed, OpenEnded, StartedBy, Adds, Grown;
    var rules := tables[|tables| - 1];
    VersionsStayExact(tables, |tables| - 1);
    VersionsStayExact(tables, read);
    CurrentIsCount(tables[read], v);
    StaleCreation(tables[read], rules, v, rule, supersede, at);
    CreationFails(rules, rule, supersede, at);
    var r := DoCreateRule(rules, rule, supersede, at);
    if r.Ok? {
      CreatedAppends(tables, read, v, rule, supersede, at, r.value);
      CreationKeepsRows(rules, rule, supersede, at, r.value);
    }
  }

  /** The rules table and CreateRule, with other creators free to act between its query and its transaction. */
  class RuleService {
    var rules: Table
    var clock: Time
    ghost var tables: seq<Table>

    ghost predicate Valid()
      reads this
    {
      Grown(tables) && rules == tables[|tables| - 1] && Keyed(rules) && OpenEnded(rules) && StartedBy(rules, clock)
    }

    constructor (now: Time)
      ensures Valid() && rules == map[]
    {
      rules, clock, tables := map[], now, [map[]];
    }

    /** Other creators, and the clock. The body is the schedule in which nobody else runs. */
    method Interleave()
      requires Valid()
      modifies this
      ensures Valid() && old(tables) <= tables && old(clock) <= clock
    {
    }

    /** The new rule is the next version after the latest, with the requested contents, and nothing but the rule
        it ends has changed. It is created exactly when no other rule has been since the query and the storage
        works: `read` and `met` are the tables the query and the transaction found. */
    method CreateRule(name: string, lead: string, createdBy: string, matchKeywords: seq<string>, matchCategory: string,
                      coDepartments: seq<string>, priority: int, isDefault: bool, supersede: int, storageFails: bool)
      returns (result: Result<Rule>, ghost read: nat, ghost met: nat)
      requires Valid()
      modifies this
      ensures Valid() && old(tables) <= tables && old(clock) <= clock && VersionsExact(rules)
      ensures |old(tables)| - 1 <= read <= met == |tables| - (if result.Ok? then 2 else 1)
      ensures name == "" || lead == "" || createdBy == "" ==> result == Err(Validation) && tables == old(tables)
      ensures name != "" && lead != "" && createdBy != "" ==>
        (result.Ok? <==> read == met && !storageFails)
        && (result.Err? ==> result.error == if read < met then ConstraintViolated else StorageFailure)
      ensures result.Ok? ==>
        var r := result.value;
        && old(clock) <= r.effectiveFrom <= clock
        && r == Rule(met + 1, name, matchKeywords, matchCategory, lead, coDepartments, priority, isDefault,
                     r.effectiveFrom, None, RuleActive)
        && Adds(tables[met], rules, r, supersede, clock)
    {
      hide Created, IsCurrentVersion, VersionsExact, DoCreateRule, Keyed, OpenEnded, StartedBy, Adds, Grown;
      GrownIsExact(tables);
      read, met := |tables| - 1, |tables| - 1;
      if name == "" || lead == "" || createdBy == "" {
        return Err(Validation), read, met;
      }
      var current := GetCurrentRuleVersion(rules);
      Interleave();
      var now := clock;
      var rule := Rule(current + 1, name, matchKeywords, matchCategory, lead, coDepartments, priority, isDefault, now,
                       None, RuleActive);
      Interleave();
      met := |tables| - 1;
      CreationMeets(tables, read, current, rule, supersede, clock);
      var r := DoCreateRule(rules, rule, supersede, clock);
      if r.Err? || storageFails {
        return Err(if r.Err? then r.error else StorageFailure), read, met;
      }
      rules := r.value;
      tables := tables + [rules];
      return Ok(rule), read, met;
    }
  }
}
