/** How rows can change over a run. A row either stays exactly as it is or gets a higher version, and the
    statuses other operations rely on are never left again. So a sample, however old, still tells the
    truth about an absorbing status, and a row found at the expected version is the row that was read. */
module CivicEvolution {
  import opened SuggestionStatus
  import opened CivicDomain
  import opened CivicTables
  import opened CivicProtocol

  /** A status of an item may change in any way; the row stays. */
  predicate ItemStep(r: ItemStatus, s: ItemStatus) {
    true
  }

  predicate CampaignStep(r: Campaign, s: Campaign) {
    r == s
    || (s.id == r.id && s.code == r.code && s.opensAt == r.opensAt && s.closesAt == r.closesAt
        && r.version < s.version && Rank(r.status) < Rank(s.status))
  }

  predicate PointStep(r: CollectionPoint, s: CollectionPoint) {
    r == s
    || (s.id == r.id && s.campaignId == r.campaignId && s.district == r.district && s.name == r.name
        && s.dailyQuota == r.dailyQuota && r.version < s.version && r.status != PointActive && s.status == PointActive)
  }

  predicate AdvisorStep(r: Advisor, s: Advisor) {
    r == s
  }

  predicate IntakeStep(r: Intake, s: Intake) {
    r == s
  }

  predicate ReviewStep(r: Review, s: Review) {
    r == s
    || (s.id == r.id && s.suggestionId == r.suggestionId && s.advisorId == r.advisorId && s.panelKey == r.panelKey
        && r.version < s.version && r.verdict == ReviewPending && s.verdict != ReviewPending)
  }

  predicate PlanStep(r: HandlingPlan, s: HandlingPlan) {
    r == s
    || (s.id == r.id && s.suggestionId == r.suggestionId && s.reviewId == r.reviewId && s.key == r.key
        && r.version < s.version && r.status != HandlingCompleted && r.status != HandlingCancelled)
  }

  predicate ConversionStep(r: Conversion, s: Conversion) {
    r == s
    || (s.id == r.id && s.suggestionId == r.suggestionId && s.planId == r.planId
        && r.version < s.version && r.status != ConversionPublished && r.status != ConversionRejected)
  }

  predicate ReceiptStep(r: Receipt, s: Receipt) {
    r == s
    || (s.id == r.id && s.suggestionId == r.suggestionId && s.citizenHash == r.citizenHash && s.channel == r.channel
        && s.createdAt == r.createdAt && r.version < s.version && r.attempt <= s.attempt
        && (r.status == FeedbackQueued || r.status == FeedbackDelivering))
  }

  predicate OutboxStep(r: OutboxEvent, s: OutboxEvent) {
    r == s
    || (s.id == r.id && s.aggregateId == r.aggregateId && s.key == r.key && s.createdAt == r.createdAt
        && r.version < s.version && r.attempt <= s.attempt && r.status != OutboxPublished)
  }

  /** No row disappears, and every row has moved by `step`. */
  ghost predicate Grows<R(!new)>(a: map<Id, R>, b: map<Id, R>, step: (R, R) -> bool) {
    forall i :: i in a ==> i in b && step(a[i], b[i])
  }

  lemma GrowsTransitive<R(!new)>(a: map<Id, R>, b: map<Id, R>, c: map<Id, R>, step: (R, R) -> bool)
    requires Grows(a, b, step) && Grows(b, c, step)
    requires forall x, y, z :: step(x, y) && step(y, z) ==> step(x, z)
    ensures Grows(a, c, step)
  {
    forall i | i in a
      ensures i in c && step(a[i], c[i])
    {
      assert step(a[i], b[i]) && step(b[i], c[i]);
    }
  }

  /** Database b may come after database a. */
  ghost predicate Evolves(a: Db, b: Db) {
    && Grows(a.items, b.items, ItemStep)
    && Grows(a.campaigns, b.campaigns, CampaignStep)
    && Grows(a.points, b.points, PointStep)
    && Grows(a.advisors, b.advisors, AdvisorStep)
    && Grows(a.intakes, b.intakes, IntakeStep)
    && Grows(a.reviews, b.reviews, ReviewStep)
    && Grows(a.plans, b.plans, PlanStep)
    && Grows(a.conversions, b.conversions, ConversionStep)
    && Grows(a.receipts, b.receipts, ReceiptStep)
    && Grows(a.outbox, b.outbox, OutboxStep)
  }

  lemma CollectionEvolves(a: Db, b: Db, c: Db)
    requires Evolves(a, b) && Evolves(b, c)
    ensures Grows(a.items, c.items, ItemStep) && Grows(a.campaigns, c.campaigns, CampaignStep)
    ensures Grows(a.points, c.points, PointStep) && Grows(a.advisors, c.advisors, AdvisorStep)
    ensures Grows(a.intakes, c.intakes, IntakeStep)
  {
    GrowsTransitive(a.items, b.items, c.items, ItemStep);
    GrowsTransitive(a.campaigns, b.campaigns, c.campaigns, CampaignStep);
    GrowsTransitive(a.points, b.points, c.points, PointStep);
  }

  lemma HandlingEvolves(a: Db, b: Db, c: Db)
    requires Evolves(a, b) && Evolves(b, c)
    ensures Grows(a.reviews, c.reviews, ReviewStep) && Grows(a.plans, c.plans, PlanStep)
    ensures Grows(a.conversions, c.conversions, ConversionStep)
  {
    GrowsTransitive(a.reviews, b.reviews, c.reviews, ReviewStep);
    GrowsTransitive(a.plans, b.plans, c.plans, PlanStep);
    GrowsTransitive(a.conversions, b.conversions, c.conversions, ConversionStep);
  }

  lemma DeliveryEvolves(a: Db, b: Db, c: Db)
    requires Evolves(a, b) && Evolves(b, c)
    ensures Grows(a.receipts, c.receipts, ReceiptStep) && Grows(a.outbox, c.outbox, OutboxStep)
  {
    GrowsTransitive(a.receipts, b.receipts, c.receipts, ReceiptStep);
    GrowsTransitive(a.outbox, b.outbox, c.outbox, OutboxStep);
  }

  lemma EvolvesTransitive(a: Db, b: Db, c: Db)
    requires Evolves(a, b) && Evolves(b, c)
    ensures Evolves(a, c)
  {
    hide Grows;
    CollectionEvolves(a, b, c);
    HandlingEvolves(a, b, c);
    DeliveryEvolves(a, b, c);
  }

  ghost predicate StoredUnder<R(!new)>(table: map<Id, R>, key: R -> Id) {
    forall i :: i in table ==> key(table[i]) == i
  }

  /** Every row is stored under its own primary key. */
  ghost predicate Keyed(db: Db) {
    && StoredUnder(db.campaigns, (r: Campaign) => r.id)
    && StoredUnder(db.points, (r: CollectionPoint) => r.id)
    && StoredUnder(db.advisors, (r: Advisor) => r.id)
    && StoredUnder(db.reviews, (r: Review) => r.id)
    && StoredUnder(db.plans, (r: HandlingPlan) => r.id)
    && StoredUnder(db.conversions, (r: Conversion) => r.id)
    && StoredUnder(db.receipts, (r: Receipt) => r.id)
    && StoredUnder(db.outbox, (r: OutboxEvent) => r.id)
  }

  /** The rows of the delivery tables carry no time the clock has not reached. */
  ghost predicate Timely(w: World) {
    && (forall i :: i in w.db.receipts ==> w.db.receipts[i].updatedAt <= w.clock)
    && (forall i :: i in w.db.outbox ==> w.db.outbox[i].updatedAt <= w.clock)
  }

  /** One sample a client may still hold when the world has become `cur`. */
  ghost predicate Past(p: World, cur: World) {
    Keyed(p.db) && Timely(p) && Evolves(p.db, cur.db) && p.clock <= cur.clock
  }

  /** Samples of one operation, in the order its code took them. */
  ghost predicate Stale(s: Samples, cur: World) {
    && (forall j {:trigger Past(s[j], cur)} :: 0 <= j < SLOTS ==> Past(s[j], cur))
    && (forall i, j :: 0 <= i <= j < SLOTS ==> s[i].clock <= s[j].clock)
  }

  /******* What a stale sample of a row still says about the row *******/

  lemma PastCampaign(s: Samples, j: nat, cur: World, id: Id)
    requires Stale(s, cur) && j < SLOTS && id in s[j].db.campaigns
    ensures s[j].db.campaigns[id].id == id
    ensures id in cur.db.campaigns && CampaignStep(s[j].db.campaigns[id], cur.db.campaigns[id])
  {
    assert Past(s[j], cur);
  }

  lemma PastPoint(s: Samples, j: nat, cur: World, id: Id)
    requires Stale(s, cur) && j < SLOTS && id in s[j].db.points
    ensures s[j].db.points[id].id == id
    ensures id in cur.db.points && PointStep(s[j].db.points[id], cur.db.points[id])
  {
    assert Past(s[j], cur);
  }

  lemma PastAdvisor(s: Samples, j: nat, cur: World, id: Id)
    requires Stale(s, cur) && j < SLOTS && id in s[j].db.advisors
    ensures s[j].db.advisors[id].id == id
    ensures id in cur.db.advisors && AdvisorStep(s[j].db.advisors[id], cur.db.advisors[id])
  {
    assert Past(s[j], cur);
  }

  lemma PastReview(s: Samples, j: nat, cur: World, id: Id)
    requires Stale(s, cur) && j < SLOTS && id in s[j].db.reviews
    ensures s[j].db.reviews[id].id == id
    ensures id in cur.db.reviews && ReviewStep(s[j].db.reviews[id], cur.db.reviews[id])
  {
    assert Past(s[j], cur);
  }

  lemma PastPlan(s: Samples, j: nat, cur: World, id: Id)
    requires Stale(s, cur) && j < SLOTS && id in s[j].db.plans
    ensures s[j].db.plans[id].id == id
    ensures id in cur.db.plans && PlanStep(s[j].db.plans[id], cur.db.plans[id])
  {
    assert Past(s[j], cur);
  }

  lemma PastConversion(s: Samples, j: nat, cur: World, id: Id)
    requires Stale(s, cur) && j < SLOTS && id in s[j].db.conversions
    ensures s[j].db.conversions[id].id == id
    ensures id in cur.db.conversions && ConversionStep(s[j].db.conversions[id], cur.db.conversions[id])
  {
    assert Past(s[j], cur);
  }

  lemma PastReceipt(s: Samples, j: nat, cur: World, id: Id)
    requires Stale(s, cur) && j < SLOTS && id in s[j].db.receipts
    ensures s[j].db.receipts[id].id == id
    ensures id in cur.db.receipts && ReceiptStep(s[j].db.receipts[id], cur.db.receipts[id])
    ensures s[j].db.receipts[id].updatedAt <= s[j].clock
  {
    assert Past(s[j], cur);
  }

  lemma PastEvent(s: Samples, j: nat, cur: World, id: Id)
    requires Stale(s, cur) && j < SLOTS && id in s[j].db.outbox
    ensures s[j].db.outbox[id].id == id
    ensures id in cur.db.outbox && OutboxStep(s[j].db.outbox[id], cur.db.outbox[id])
    ensures s[j].db.outbox[id].updatedAt <= s[j].clock
  {
    assert Past(s[j], cur);
  }

  lemma PastActivePoint(s: Samples, j: nat, cur: World, campaignId: Id)
    requires Stale(s, cur) && j < SLOTS && HasActivePoint(s[j].db, campaignId)
    ensures HasActivePoint(cur.db, campaignId)
  {
    var i :| i in s[j].db.points && s[j].db.points[i].campaignId == campaignId
        && s[j].db.points[i].status == PointActive;
    PastPoint(s, j, cur, i);
  }

  lemma PastClock(s: Samples, j: nat, cur: World)
    requires Stale(s, cur) && j < SLOTS
    ensures s[j].clock <= cur.clock
  {
    assert Past(s[j], cur);
  }
}
