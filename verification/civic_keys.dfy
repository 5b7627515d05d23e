/** What the schema is for, in every world of every run: the unique keys and foreign keys hold, and optimistic
    locking loses no update. */
module CivicKeys {
  import opened CivicDomain
  import opened CivicTables
  import opened CivicProtocol
  import opened CivicEvolution
  import opened CivicSafety

  /******* Unique keys *******/

  predicate SameCode(a: Campaign, b: Campaign) {
    a.code == b.code
  }

  predicate SamePlace(a: CollectionPoint, b: CollectionPoint) {
    a.campaignId == b.campaignId && a.district == b.district && a.name == b.name
  }

  predicate SameUser(a: Advisor, b: Advisor) {
    a.campaignId == b.campaignId && a.userId == b.userId
  }

  predicate SameIntake(a: Intake, b: Intake) {
    a.suggestionId == b.suggestionId || (a.campaignId == b.campaignId && a.key == b.key)
  }

  predicate SameReviewer(a: Review, b: Review) {
    a.advisorId == b.advisorId && (a.suggestionId == b.suggestionId || a.panelKey == b.panelKey)
  }

  predicate SamePlanKey(a: HandlingPlan, b: HandlingPlan) {
    a.suggestionId == b.suggestionId && a.key == b.key
  }

  predicate SameBenefit(a: Conversion, b: Conversion) {
    a.suggestionId == b.suggestionId
  }

  predicate SameIdentity(a: Receipt, b: Receipt) {
    a.suggestionId == b.suggestionId && a.citizenHash == b.citizenHash && a.channel == b.channel
  }

  predicate SameEventKey(a: OutboxEvent, b: OutboxEvent) {
    a.key == b.key
  }

  /** No two rows share a key. */
  ghost predicate Unique<R(!new)>(table: map<Id, R>, same: (R, R) -> bool) {
    forall i, j :: i in table && j in table && same(table[i], table[j]) ==> i == j
  }

  ghost predicate UniqueKeys(db: Db) {
    && Unique(db.campaigns, SameCode)
    && Unique(db.points, SamePlace)
    && Unique(db.advisors, SameUser)
    && Unique(db.intakes, SameIntake)
    && Unique(db.reviews, SameReviewer)
    && Unique(db.plans, SamePlanKey)
    && Unique(db.conversions, SameBenefit)
    && Unique(db.receipts, SameIdentity)
    && Unique(db.outbox, SameEventKey)
  }

  /** A transaction touches only the tables of its rows, and takes no row away. */
  lemma TransactionFrame(db: Db, w: Write)
    requires Apply(db, w).Ok?
    ensures var after := Apply(db, w).value;
            && after.items == db.items
            && (after.campaigns == db.campaigns || w.InsertCampaign? || w.UpdateCampaign?)
            && db.campaigns.Keys <= after.campaigns.Keys
            && (after.points == db.points || w.InsertPoint? || w.UpdatePoint?) && db.points.Keys <= after.points.Keys
            && (after.advisors == db.advisors || w.InsertAdvisor?) && db.advisors.Keys <= after.advisors.Keys
            && (after.intakes == db.intakes || w.InsertIntake?) && db.intakes.Keys <= after.intakes.Keys
            && (after.reviews == db.reviews || w.InsertReview? || w.UpdateReview?)
            && db.reviews.Keys <= after.reviews.Keys
            && (after.plans == db.plans || w.InsertPlan? || w.UpdatePlan?) && db.plans.Keys <= after.plans.Keys
            && (after.conversions == db.conversions || w.InsertConversion? || w.UpdateConversion?)
            && db.conversions.Keys <= after.conversions.Keys
            && (after.receipts == db.receipts || w.InsertReceiptAndEvent? || w.UpdateReceipt?)
            && db.receipts.Keys <= after.receipts.Keys
            && (after.outbox == db.outbox || w.InsertReceiptAndEvent? || w.UpdateEvent?)
            && db.outbox.Keys <= after.outbox.Keys
  {
    hide MayInsertCampaign, MayInsertPoint, MayInsertAdvisor, MayInsertIntake, MayInsertReview, MayInsertPlan,
         MayInsertConversion, MayInsertReceipt, MayInsertEvent, MayRewritePoint;
  }

  lemma CampaignKeysStay(db: Db, w: Write)
    requires (w.InsertCampaign? || w.UpdateCampaign?) && Unique(db.campaigns, SameCode) && Apply(db, w).Ok?
    ensures Unique(Apply(db, w).value.campaigns, SameCode)
  {
  }

  lemma PointKeysStay(db: Db, w: Write)
    requires (w.InsertPoint? || w.UpdatePoint?) && Unique(db.points, SamePlace) && Apply(db, w).Ok?
    ensures Unique(Apply(db, w).value.points, SamePlace)
  {
  }

  lemma AdvisorKeysStay(db: Db, w: Write)
    requires (w.InsertAdvisor?) && Unique(db.advisors, SameUser) && Apply(db, w).Ok?
    ensures Unique(Apply(db, w).value.advisors, SameUser)
  {
  }

  lemma IntakeKeysStay(db: Db, w: Write)
    requires (w.InsertIntake?) && Unique(db.intakes, SameIntake) && Apply(db, w).Ok?
    ensures Unique(Apply(db, w).value.intakes, SameIntake)
  {
  }

  lemma ReviewKeysStay(db: Db, w: Write)
    requires (w.InsertReview? || w.UpdateReview?) && Unique(db.reviews, SameReviewer) && Apply(db, w).Ok?
    ensures Unique(Apply(db, w).value.reviews, SameReviewer)
  {
  }

  lemma PlanKeysStay(db: Db, w: Write)
    requires (w.InsertPlan? || w.UpdatePlan?) && Unique(db.plans, SamePlanKey) && Apply(db, w).Ok?
    ensures Unique(Apply(db, w).value.plans, SamePlanKey)
  {
  }

  lemma ConversionKeysStay(db: Db, w: Write)
    requires (w.InsertConversion? || w.UpdateConversion?) && Unique(db.conversions, SameBenefit) && Apply(db, w).Ok?
    ensures Unique(Apply(db, w).value.conversions, SameBenefit)
  {
  }

  lemma ReceiptKeysStay(db: Db, w: Write)
    requires (w.InsertReceiptAndEvent? || w.UpdateReceipt?) && Unique(db.receipts, SameIdentity) && Apply(db, w).Ok?
    ensures Unique(Apply(db, w).value.receipts, SameIdentity)
  {
  }

  lemma EventKeysStay(db: Db, w: Write)
    requires (w.InsertReceiptAndEvent? || w.UpdateEvent?) && Unique(db.outbox, SameEventKey) && Apply(db, w).Ok?
    ensures Unique(Apply(db, w).value.outbox, SameEventKey)
  {
  }

  lemma UniqueKeysStay(db: Db, w: Write)
    requires UniqueKeys(db) && Apply(db, w).Ok?
    ensures UniqueKeys(Apply(db, w).value)
  {
    hide Apply, Unique;
    TransactionFrame(db, w);
    if w.InsertCampaign? || w.UpdateCampaign? { CampaignKeysStay(db, w); }
    if w.InsertPoint? || w.UpdatePoint? { PointKeysStay(db, w); }
    if w.InsertAdvisor? { AdvisorKeysStay(db, w); }
    if w.InsertIntake? { IntakeKeysStay(db, w); }
    if w.InsertReview? || w.UpdateReview? { ReviewKeysStay(db, w); }
    if w.InsertPlan? || w.UpdatePlan? { PlanKeysStay(db, w); }
    if w.InsertConversion? || w.UpdateConversion? { ConversionKeysStay(db, w); }
    if w.InsertReceiptAndEvent? || w.UpdateReceipt? { ReceiptKeysStay(db, w); }
    if w.InsertReceiptAndEvent? || w.UpdateEvent? { EventKeysStay(db, w); }
  }

  /******* Foreign keys *******/

  ghost predicate Refers<R(!new), S>(table: map<Id, R>, to: R -> Id, other: map<Id, S>) {
    forall i :: i in table ==> to(table[i]) in other
  }

  /** Whatever a foreign key names is there. */
  ghost predicate References(db: Db) {
    && Refers(db.points, (r: CollectionPoint) => r.campaignId, db.campaigns)
    && Refers(db.advisors, (r: Advisor) => r.campaignId, db.campaigns)
    && Refers(db.intakes, (r: Intake) => r.suggestionId, db.items)
    && Refers(db.intakes, (r: Intake) => r.campaignId, db.campaigns)
    && Refers(db.intakes, (r: Intake) => r.pointId, db.points)
    && Refers(db.reviews, (r: Review) => r.suggestionId, db.items)
    && Refers(db.reviews, (r: Review) => r.advisorId, db.advisors)
    && Refers(db.plans, (r: HandlingPlan) => r.suggestionId, db.items)
    && Refers(db.plans, (r: HandlingPlan) => r.reviewId, db.reviews)
    && Refers(db.conversions, (r: Conversion) => r.suggestionId, db.items)
    && Refers(db.conversions, (r: Conversion) => r.planId, db.plans)
    && Refers(db.receipts, (r: Receipt) => r.suggestionId, db.items)
  }

  lemma PointReferencesStay(db: Db, w: Write)
    requires (w.InsertPoint? || w.UpdatePoint?) && Apply(db, w).Ok?
    requires Refers(db.points, (r: CollectionPoint) => r.campaignId, db.campaigns)
    ensures Refers(Apply(db, w).value.points, (r: CollectionPoint) => r.campaignId, db.campaigns)
  {
  }

  lemma AdvisorReferencesStay(db: Db, w: Write)
    requires (w.InsertAdvisor?) && Apply(db, w).Ok?
    requires Refers(db.advisors, (r: Advisor) => r.campaignId, db.campaigns)
    ensures Refers(Apply(db, w).value.advisors, (r: Advisor) => r.campaignId, db.campaigns)
  {
  }

  lemma IntakeReferencesStay(db: Db, w: Write)
    requires (w.InsertIntake?) && Apply(db, w).Ok?
    requires Refers(db.intakes, (r: Intake) => r.suggestionId, db.items)
    requires Refers(db.intakes, (r: Intake) => r.campaignId, db.campaigns)
    requires Refers(db.intakes, (r: Intake) => r.pointId, db.points)
    ensures Refers(Apply(db, w).value.intakes, (r: Intake) => r.suggestionId, db.items)
    ensures Refers(Apply(db, w).value.intakes, (r: Intake) => r.campaignId, db.campaigns)
    ensures Refers(Apply(db, w).value.intakes, (r: Intake) => r.pointId, db.points)
  {
  }

  lemma ReviewReferencesStay(db: Db, w: Write)
    requires (w.InsertReview? || w.UpdateReview?) && Apply(db, w).Ok?
    requires Refers(db.reviews, (r: Review) => r.suggestionId, db.items)
    requires Refers(db.reviews, (r: Review) => r.advisorId, db.advisors)
    ensures Refers(Apply(db, w).value.reviews, (r: Review) => r.suggestionId, db.items)
    ensures Refers(Apply(db, w).value.reviews, (r: Review) => r.advisorId, db.advisors)
  {
  }

  lemma PlanReferencesStay(db: Db, w: Write)
    requires (w.InsertPlan? || w.UpdatePlan?) && Apply(db, w).Ok?
    requires Refers(db.plans, (r: HandlingPlan) => r.suggestionId, db.items)
    requires Refers(db.plans, (r: HandlingPlan) => r.reviewId, db.reviews)
    ensures Refers(Apply(db, w).value.plans, (r: HandlingPlan) => r.suggestionId, db.items)
    ensures Refers(Apply(db, w).value.plans, (r: HandlingPlan) => r.reviewId, db.reviews)
  {
  }

  lemma ConversionReferencesStay(db: Db, w: Write)
    requires (w.InsertConversion? || w.UpdateConversion?) && Apply(db, w).Ok?
    requires Refers(db.conversions, (r: Conversion) => r.suggestionId, db.items)
    requires Refers(db.conversions, (r: Conversion) => r.planId, db.plans)
    ensures Refers(Apply(db, w).value.conversions, (r: Conversion) => r.suggestionId, db.items)
    ensures Refers(Apply(db, w).value.conversions, (r: Conversion) => r.planId, db.plans)
  {
  }

  lemma ReceiptReferencesStay(db: Db, w: Write)
    requires (w.InsertReceiptAndEvent? || w.UpdateReceipt?) && Apply(db, w).Ok?
    requires Refers(db.receipts, (r: Receipt) => r.suggestionId, db.items)
    ensures Refers(Apply(db, w).value.receipts, (r: Receipt) => r.suggestionId, db.items)
  {
  }

  lemma RefersToMore<R(!new), S>(table: map<Id, R>, to: R -> Id, other: map<Id, S>, more: map<Id, S>)
    requires Refers(table, to, other) && other.Keys <= more.Keys
    ensures Refers(table, to, more)
  {
  }

  lemma ReferencesStay(db: Db, w: Write)
    requires References(db) && Apply(db, w).Ok?
    ensures References(Apply(db, w).value)
  {
    hide Apply, Refers;
    var after := Apply(db, w).value;
    TransactionFrame(db, w);
    if w.InsertPoint? || w.UpdatePoint? { PointReferencesStay(db, w); }
    if w.InsertAdvisor? { AdvisorReferencesStay(db, w); }
    if w.InsertIntake? { IntakeReferencesStay(db, w); }
    if w.InsertReview? || w.UpdateReview? { ReviewReferencesStay(db, w); }
    if w.InsertPlan? || w.UpdatePlan? { PlanReferencesStay(db, w); }
    if w.InsertConversion? || w.UpdateConversion? { ConversionReferencesStay(db, w); }
    if w.InsertReceiptAndEvent? || w.UpdateReceipt? { ReceiptReferencesStay(db, w); }
    RefersToMore(after.points, (r: CollectionPoint) => r.campaignId, db.campaigns, after.campaigns);
    RefersToMore(after.advisors, (r: Advisor) => r.campaignId, db.campaigns, after.campaigns);
    RefersToMore(after.intakes, (r: Intake) => r.campaignId, db.campaigns, after.campaigns);
    RefersToMore(after.intakes, (r: Intake) => r.pointId, db.points, after.points);
    RefersToMore(after.reviews, (r: Review) => r.advisorId, db.advisors, after.advisors);
    RefersToMore(after.plans, (r: HandlingPlan) => r.reviewId, db.reviews, after.reviews);
    RefersToMore(after.conversions, (r: Conversion) => r.planId, db.plans, after.plans);
  }

  lemma NextKeepsKeys(run: Run, k: nat)
    requires ValidRun(run) && k < |run.events| && UniqueKeys(run.worlds[k].db) && References(run.worlds[k].db)
    ensures UniqueKeys(run.worlds[k + 1].db) && References(run.worlds[k + 1].db)
  {
    hide Apply, Decide, Unique;
    var db, ev := run.worlds[k].db, run.events[k];
    assert Next(run.worlds, k, ev);
    if ev.Committed? {
      hide References, UniqueKeys;
      var w := Decide(ev.request, Sample(run.worlds, ev.at)).w;
      UniqueKeysStay(db, w);
      ReferencesStay(db, w);
    }
  }

  /** In every world of every run all unique keys and all foreign keys hold. */
  lemma {:induction false} KeysAlwaysHold(run: Run, k: nat)
    requires ValidRun(run) && k < |run.worlds|
    ensures UniqueKeys(run.worlds[k].db) && References(run.worlds[k].db)
  {
    if k > 0 {
      hide UniqueKeys, References, Next;
      KeysAlwaysHold(run, k - 1);
      NextKeepsKeys(run, k - 1);
    }
  }

  /******* Optimistic locking *******/

  datatype RowName =
    | CampaignRow(id: Id) | PointRow(id: Id) | ReviewRow(id: Id) | PlanRow(id: Id) | ConversionRow(id: Id)
    | ReceiptRow(id: Id) | EventRow(id: Id)

  predicate Updates(w: Write) {
    w.UpdateCampaign? || w.UpdatePoint? || w.UpdateReview? || w.UpdatePlan? || w.UpdateConversion? || w.UpdateReceipt?
    || w.UpdateEvent?
  }

  function RowOf(w: Write): RowName
    requires Updates(w)
  {
    if w.UpdateCampaign? then CampaignRow(w.campaign.id)
    else if w.UpdatePoint? then PointRow(w.point.id)
    else if w.UpdateReview? then ReviewRow(w.review.id)
    else if w.UpdatePlan? then PlanRow(w.plan.id)
    else if w.UpdateConversion? then ConversionRow(w.conversion.id)
    else if w.UpdateReceipt? then ReceiptRow(w.receipt.id)
    else EventRow(w.event.id)
  }

  predicate Has(db: Db, row: RowName) {
    match row
    case CampaignRow(i) => i in db.campaigns
    case PointRow(i) => i in db.points
    case ReviewRow(i) => i in db.reviews
    case PlanRow(i) => i in db.plans
    case ConversionRow(i) => i in db.conversions
    case ReceiptRow(i) => i in db.receipts
    case EventRow(i) => i in db.outbox
  }

  function VersionOf(db: Db, row: RowName): int
    requires Has(db, row)
  {
    match row
    case CampaignRow(i) => db.campaigns[i].version
    case PointRow(i) => db.points[i].version
    case ReviewRow(i) => db.reviews[i].version
    case PlanRow(i) => db.plans[i].version
    case ConversionRow(i) => db.conversions[i].version
    case ReceiptRow(i) => db.receipts[i].version
    case EventRow(i) => db.outbox[i].version
  }

  lemma VersionsNeverFall(a: Db, b: Db, row: RowName)
    requires Evolves(a, b) && Has(a, row)
    ensures Has(b, row) && VersionOf(a, row) <= VersionOf(b, row)
  {
  }

  /** The version the row will have. */
  function NextVersion(w: Write): int
    requires Updates(w)
  {
    if w.UpdateCampaign? then w.campaign.version
    else if w.UpdatePoint? then w.point.version
    else if w.UpdateReview? then w.review.version
    else if w.UpdatePlan? then w.plan.version
    else if w.UpdateConversion? then w.conversion.version
    else if w.UpdateReceipt? then w.receipt.version
    else w.event.version
  }

  lemma UpdatesCountUp(q: Request, s: Samples)
    requires Decide(q, s).Commit? && Updates(Decide(q, s).w)
    ensures NextVersion(Decide(q, s).w) == Decide(q, s).w.expected + 1
  {
  }

  /** An update meets the version it expects and leaves the one it carries. */
  lemma UpdateMoves(db: Db, w: Write)
    requires Updates(w) && Apply(db, w).Ok?
    ensures var after := Apply(db, w).value;
            && Has(db, RowOf(w)) && VersionOf(db, RowOf(w)) == w.expected
            && Has(after, RowOf(w)) && VersionOf(after, RowOf(w)) == NextVersion(w)
  {
  }

  ghost predicate UpdatesRow(run: Run, k: nat, row: RowName, expected: int)
    requires ValidRun(run)
  {
    k < |run.events| && run.events[k].Committed?
    && assert Next(run.worlds, k, run.events[k]);
       var w := Decide(run.events[k].request, Sample(run.worlds, run.events[k].at)).w;
       Updates(w) && RowOf(w) == row && w.expected == expected
  }

  lemma UpdateMovesRow(run: Run, k: nat, row: RowName, expected: int)
    requires ValidRun(run) && UpdatesRow(run, k, row, expected)
    ensures Has(run.worlds[k].db, row) && VersionOf(run.worlds[k].db, row) == expected
    ensures Has(run.worlds[k + 1].db, row) && VersionOf(run.worlds[k + 1].db, row) == expected + 1
  {
    hide Apply, Decide;
    assert Next(run.worlds, k, run.events[k]);
    var q, s := run.events[k].request, Sample(run.worlds, run.events[k].at);
    UpdatesCountUp(q, s);
    UpdateMoves(run.worlds[k].db, Decide(q, s).w);
  }

  /** No update is lost: of two updates of a row in a run, the later expects a higher version than the earlier
      did, so it was decided on a row at least as new as the earlier one left it. In particular two clients
      that have read the same version never both commit. */
  lemma NoLostUpdate(run: Run, j: nat, k: nat, row: RowName, first: int, second: int)
    requires ValidRun(run) && j < k < |run.events| && UpdatesRow(run, j, row, first) && UpdatesRow(run, k, row, second)
    ensures first < second
  {
    hide UpdatesRow, Next, VersionOf, Has, Evolves;
    UpdateMovesRow(run, j, row, first);
    UpdateMovesRow(run, k, row, second);
    RunSafeUpTo(run, k);
    VersionsNeverFall(run.worlds[j + 1].db, run.worlds[k].db, row);
  }
}
