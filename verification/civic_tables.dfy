/** The relational tables of migrations/0003_civic_workflow.sql with their constraints and triggers,
    and the statements of internal/index/civic_writes.go as functions on them. */
module CivicTables {
  import opened Outcomes
  import opened SuggestionStatus
  import opened Durations
  import opened CivicDomain

  /** `items` keeps only what the civic workflow looks at: which suggestions exist, and their status. */
  datatype Db = Db(
    items: map<Id, ItemStatus>,
    campaigns: map<Id, Campaign>,
    points: map<Id, CollectionPoint>,
    advisors: map<Id, Advisor>,
    intakes: map<Id, Intake>,
    reviews: map<Id, Review>,
    plans: map<Id, HandlingPlan>,
    conversions: map<Id, Conversion>,
    receipts: map<Id, Receipt>,
    outbox: map<Id, OutboxEvent>)

  const EMPTY_DB := Db(map[], map[], map[], map[], map[], map[], map[], map[], map[], map[])

  /** One transaction's row changes. Every operation changes one row, except the queueing of feedback. */
  datatype Write =
    | InsertCampaign(campaign: Campaign)
    | UpdateCampaign(campaign: Campaign, expected: int)
    | InsertPoint(point: CollectionPoint)
    | UpdatePoint(point: CollectionPoint, expected: int)
    | InsertAdvisor(advisor: Advisor)
    | InsertIntake(intake: Intake)
    | InsertReview(review: Review)
    | UpdateReview(review: Review, expected: int)
    | InsertPlan(plan: HandlingPlan)
    | UpdatePlan(plan: HandlingPlan, expected: int)
    | InsertConversion(conversion: Conversion)
    | UpdateConversion(conversion: Conversion, expected: int)
    | InsertReceiptAndEvent(receipt: Receipt, event: OutboxEvent)
    | UpdateReceipt(receipt: Receipt, expected: int)
    | UpdateEvent(event: OutboxEvent, expected: int)

  /******* Keys, lookups and counts *******/

  predicate HasCode(db: Db, code: string) {
    exists i :: i in db.campaigns && db.campaigns[i].code == code
  }

  predicate HasPointName(db: Db, campaignId: Id, district: string, name: string) {
    exists i :: i in db.points && db.points[i].campaignId == campaignId
                && db.points[i].district == district && db.points[i].name == name
  }

  predicate HasAdvisorUser(db: Db, campaignId: Id, userId: Id) {
    exists i :: i in db.advisors && db.advisors[i].campaignId == campaignId && db.advisors[i].userId == userId
  }

  predicate HasIntakeKey(db: Db, campaignId: Id, key: string) {
    exists i :: i in db.intakes && db.intakes[i].campaignId == campaignId && db.intakes[i].key == key
  }

  predicate HasIntakeOf(db: Db, suggestionId: Id) {
    exists i :: i in db.intakes && db.intakes[i].suggestionId == suggestionId
  }

  predicate HasReview(db: Db, suggestionId: Id, advisorId: Id) {
    exists i :: i in db.reviews && db.reviews[i].suggestionId == suggestionId && db.reviews[i].advisorId == advisorId
  }

  predicate HasPanel(db: Db, panelKey: string, advisorId: Id) {
    exists i :: i in db.reviews && db.reviews[i].panelKey == panelKey && db.reviews[i].advisorId == advisorId
  }

  predicate HasPlanKey(db: Db, suggestionId: Id, key: string) {
    exists i :: i in db.plans && db.plans[i].suggestionId == suggestionId && db.plans[i].key == key
  }

  predicate HasConversion(db: Db, suggestionId: Id) {
    exists i :: i in db.conversions && db.conversions[i].suggestionId == suggestionId
  }

  predicate HasIdentity(db: Db, suggestionId: Id, citizenHash: string, channel: string) {
    exists i :: i in db.receipts && db.receipts[i].suggestionId == suggestionId
                && db.receipts[i].citizenHash == citizenHash && db.receipts[i].channel == channel
  }

  predicate HasEventKey(db: Db, key: string) {
    exists i :: i in db.outbox && db.outbox[i].key == key
  }

  /** CountActiveCollectionPoints > 0, and equally a non-empty ListCollectionPoints(active). */
  predicate HasActivePoint(db: Db, campaignId: Id) {
    exists i :: i in db.points && db.points[i].campaignId == campaignId && db.points[i].status == PointActive
  }

  function IntakesOn(db: Db, pointId: Id, day: int): set<Id> {
    set i | i in db.intakes && db.intakes[i].pointId == pointId && DayOf(db.intakes[i].acceptedAt) == day
  }

  /** CountPointIntakes: the rows the service counts before it tries to insert. */
  function IntakesBetween(db: Db, pointId: Id, from: Time, to: Time): set<Id> {
    set i | i in db.intakes && db.intakes[i].pointId == pointId && from <= db.intakes[i].acceptedAt < to
  }

  function PendingReviews(db: Db, advisorId: Id): set<Id> {
    set i | i in db.reviews && db.reviews[i].advisorId == advisorId && db.reviews[i].verdict == ReviewPending
  }

  /******* Constraints *******/

  /** trg_intake_daily_quota. A missing point makes the comparison NULL, which does not abort. */
  predicate DailyQuotaReached(db: Db, n: Intake) {
    n.pointId in db.points
    && |IntakesOn(db, n.pointId, DayOf(n.acceptedAt))| >= db.points[n.pointId].dailyQuota
  }

  /** trg_advisor_review_quota. An inactive advisor yields NULL, which does not abort. */
  predicate ReviewQuotaReached(db: Db, r: Review) {
    r.advisorId in db.advisors && db.advisors[r.advisorId].active
    && |PendingReviews(db, r.advisorId)| >= db.advisors[r.advisorId].reviewQuota
  }

  predicate MayInsertCampaign(db: Db, c: Campaign) {
    c.id !in db.campaigns && !HasCode(db, c.code)
  }

  predicate MayInsertPoint(db: Db, p: CollectionPoint) {
    p.id !in db.points && p.campaignId in db.campaigns && p.dailyQuota > 0
    && !HasPointName(db, p.campaignId, p.district, p.name)
  }

  predicate MayInsertAdvisor(db: Db, a: Advisor) {
    a.id !in db.advisors && a.campaignId in db.campaigns && a.reviewQuota > 0
    && !HasAdvisorUser(db, a.campaignId, a.userId)
  }

  predicate MayInsertIntake(db: Db, n: Intake) {
    n.id !in db.intakes && n.suggestionId in db.items && n.campaignId in db.campaigns && n.pointId in db.points
    && !HasIntakeOf(db, n.suggestionId) && !HasIntakeKey(db, n.campaignId, n.key) && !DailyQuotaReached(db, n)
  }

  predicate MayInsertReview(db: Db, r: Review) {
    r.id !in db.reviews && r.suggestionId in db.items && r.advisorId in db.advisors
    && !HasReview(db, r.suggestionId, r.advisorId) && !HasPanel(db, r.panelKey, r.advisorId)
    && !ReviewQuotaReached(db, r)
  }

  predicate MayInsertPlan(db: Db, p: HandlingPlan) {
    p.id !in db.plans && p.suggestionId in db.items && p.reviewId in db.reviews
    && !HasPlanKey(db, p.suggestionId, p.key)
  }

  predicate MayInsertConversion(db: Db, o: Conversion) {
    o.id !in db.conversions && o.suggestionId in db.items && o.planId in db.plans
    && !HasConversion(db, o.suggestionId)
  }

  predicate MayInsertReceipt(db: Db, r: Receipt) {
    r.id !in db.receipts && r.suggestionId in db.items
    && !HasIdentity(db, r.suggestionId, r.citizenHash, r.channel)
  }

  predicate MayInsertEvent(db: Db, e: OutboxEvent) {
    e.id !in db.outbox && !HasEventKey(db, e.key)
  }

  /** A rewritten point must still satisfy the CHECK and the UNIQUE constraint against the other rows. */
  predicate MayRewritePoint(db: Db, p: CollectionPoint)
    requires p.id in db.points
  {
    p.dailyQuota > 0
    && forall i :: i in db.points && i != p.id ==>
        !(db.points[i].campaignId == db.points[p.id].campaignId
          && db.points[i].district == p.district && db.points[i].name == p.name)
  }

  /******* The statements *******/

  /** UPDATE ... SET writes only the listed columns. */
  function SetCampaign(row: Campaign, c: Campaign): Campaign {
    row.(title := c.title, theme := c.theme, status := c.status, opensAt := c.opensAt,
         closesAt := c.closesAt, version := c.version, updatedAt := c.updatedAt)
  }

  function SetPoint(row: CollectionPoint, p: CollectionPoint): CollectionPoint {
    row.(district := p.district, name := p.name, address := p.address, topic := p.topic,
         dailyQuota := p.dailyQuota, status := p.status, version := p.version,
         activatedAt := p.activatedAt, updatedAt := p.updatedAt)
  }

  function SetReview(row: Review, r: Review): Review {
    row.(verdict := r.verdict, notes := r.notes, version := r.version, reviewedAt := r.reviewedAt)
  }

  function SetPlan(row: HandlingPlan, p: HandlingPlan): HandlingPlan {
    row.(commitment := p.commitment, status := p.status, dueAt := p.dueAt, version := p.version,
         updatedAt := p.updatedAt)
  }

  function SetConversion(row: Conversion, o: Conversion): Conversion {
    row.(status := o.status, benefitScope := o.benefitScope, evidenceRef := o.evidenceRef,
         reviewer := o.reviewer, version := o.version, verifiedAt := o.verifiedAt, publishedAt := o.publishedAt)
  }

  function SetReceipt(row: Receipt, r: Receipt): Receipt {
    row.(status := r.status, attempt := r.attempt, nextAttemptAt := r.nextAttemptAt,
         leaseUntil := r.leaseUntil, lastError := r.lastError, version := r.version, updatedAt := r.updatedAt)
  }

  function SetEvent(row: OutboxEvent, e: OutboxEvent): OutboxEvent {
    row.(status := e.status, attempt := e.attempt, version := e.version, availableAt := e.availableAt,
         leaseUntil := e.leaseUntil, updatedAt := e.updatedAt)
  }

  /** INSERT: the row goes in if every constraint and trigger lets it, and nothing happens otherwise. */
  function DoInsertCampaign(db: Db, c: Campaign): Result<Db> {
    if MayInsertCampaign(db, c) then Ok(db.(campaigns := db.campaigns[c.id := c])) else Err(ConstraintViolated)
  }

  function DoInsertPoint(db: Db, p: CollectionPoint): Result<Db> {
    if MayInsertPoint(db, p) then Ok(db.(points := db.points[p.id := p])) else Err(ConstraintViolated)
  }

  function DoInsertAdvisor(db: Db, a: Advisor): Result<Db> {
    if MayInsertAdvisor(db, a) then Ok(db.(advisors := db.advisors[a.id := a])) else Err(ConstraintViolated)
  }

  function DoInsertIntake(db: Db, n: Intake): Result<Db> {
    if MayInsertIntake(db, n) then Ok(db.(intakes := db.intakes[n.id := n])) else Err(ConstraintViolated)
  }

  function DoInsertReview(db: Db, r: Review): Result<Db> {
    if MayInsertReview(db, r) then Ok(db.(reviews := db.reviews[r.id := r])) else Err(ConstraintViolated)
  }

  function DoInsertPlan(db: Db, p: HandlingPlan): Result<Db> {
    if MayInsertPlan(db, p) then Ok(db.(plans := db.plans[p.id := p])) else Err(ConstraintViolated)
  }

  function DoInsertConversion(db: Db, o: Conversion): Result<Db> {
    if MayInsertConversion(db, o) then Ok(db.(conversions := db.conversions[o.id := o])) else Err(ConstraintViolated)
  }

  function DoInsertReceipt(db: Db, r: Receipt): Result<Db> {
    if MayInsertReceipt(db, r) then Ok(db.(receipts := db.receipts[r.id := r])) else Err(ConstraintViolated)
  }

  function DoInsertEvent(db: Db, e: OutboxEvent): Result<Db> {
    if MayInsertEvent(db, e) then Ok(db.(outbox := db.outbox[e.id := e])) else Err(ConstraintViolated)
  }

  /** UPDATE ... WHERE id=? AND version=?: no row at the expected version means a conflict. */
  function DoUpdateCampaign(db: Db, c: Campaign, expected: int): Result<Db> {
    if c.id in db.campaigns && db.campaigns[c.id].version == expected
    then Ok(db.(campaigns := db.campaigns[c.id := SetCampaign(db.campaigns[c.id], c)]))
    else Err(ConcurrentConflict)
  }

  function DoUpdatePoint(db: Db, p: CollectionPoint, expected: int): Result<Db> {
    if !(p.id in db.points && db.points[p.id].version == expected) then Err(ConcurrentConflict)
    else if !MayRewritePoint(db, p) then Err(ConstraintViolated)
    else Ok(db.(points := db.points[p.id := SetPoint(db.points[p.id], p)]))
  }

  function DoUpdateReview(db: Db, r: Review, expected: int): Result<Db> {
    if r.id in db.reviews && db.reviews[r.id].version == expected
    then Ok(db.(reviews := db.reviews[r.id := SetReview(db.reviews[r.id], r)]))
    else Err(ConcurrentConflict)
  }

  function DoUpdatePlan(db: Db, p: HandlingPlan, expected: int): Result<Db> {
    if p.id in db.plans && db.plans[p.id].version == expected
    then Ok(db.(plans := db.plans[p.id := SetPlan(db.plans[p.id], p)]))
    else Err(ConcurrentConflict)
  }

  function DoUpdateConversion(db: Db, o: Conversion, expected: int): Result<Db> {
    if o.id in db.conversions && db.conversions[o.id].version == expected
    then Ok(db.(conversions := db.conversions[o.id := SetConversion(db.conversions[o.id], o)]))
    else Err(ConcurrentConflict)
  }

  function DoUpdateReceipt(db: Db, r: Receipt, expected: int): Result<Db> {
    if r.id in db.receipts && db.receipts[r.id].version == expected
    then Ok(db.(receipts := db.receipts[r.id := SetReceipt(db.receipts[r.id], r)]))
    else Err(ConcurrentConflict)
  }

  function DoUpdateEvent(db: Db, e: OutboxEvent, expected: int): Result<Db> {
    if e.id in db.outbox && db.outbox[e.id].version == expected
    then Ok(db.(outbox := db.outbox[e.id := SetEvent(db.outbox[e.id], e)]))
    else Err(ConcurrentConflict)
  }

  /** One transaction on the tables: all of its rows, or an error and no change. */
  function Apply(db: Db, w: Write): Result<Db> {
    if w.InsertCampaign? then DoInsertCampaign(db, w.campaign)
    else if w.UpdateCampaign? then DoUpdateCampaign(db, w.campaign, w.expected)
    else if w.InsertPoint? then DoInsertPoint(db, w.point)
    else if w.UpdatePoint? then DoUpdatePoint(db, w.point, w.expected)
    else if w.InsertAdvisor? then DoInsertAdvisor(db, w.advisor)
    else if w.InsertIntake? then DoInsertIntake(db, w.intake)
    else if w.InsertReview? then DoInsertReview(db, w.review)
    else if w.UpdateReview? then DoUpdateReview(db, w.review, w.expected)
    else if w.InsertPlan? then DoInsertPlan(db, w.plan)
    else if w.UpdatePlan? then DoUpdatePlan(db, w.plan, w.expected)
    else if w.InsertConversion? then DoInsertConversion(db, w.conversion)
    else if w.UpdateConversion? then DoUpdateConversion(db, w.conversion, w.expected)
    else if w.InsertReceiptAndEvent? then
      var half := DoInsertReceipt(db, w.receipt);
      if half.Ok? then DoInsertEvent(half.value, w.event) else half
    else if w.UpdateReceipt? then DoUpdateReceipt(db, w.receipt, w.expected)
    else DoUpdateEvent(db, w.event, w.expected)
  }
}
