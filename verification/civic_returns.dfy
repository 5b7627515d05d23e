/** What an operation returns is what it stored. The row it hands back was computed from a stale sample and
    only some of its columns are written, yet after the commit the table holds exactly that row. */
module CivicReturns {
  import opened CivicTables
  import opened CivicProtocol
  import opened CivicEvolution
  import opened CivicSerial

  /** The tables hold the rows of `w` as the client computed them. */
  predicate Stored(db: Db, w: Write) {
    if w.InsertCampaign? || w.UpdateCampaign? then
      w.campaign.id in db.campaigns && db.campaigns[w.campaign.id] == w.campaign
    else if w.InsertPoint? || w.UpdatePoint? then w.point.id in db.points && db.points[w.point.id] == w.point
    else if w.InsertAdvisor? then w.advisor.id in db.advisors && db.advisors[w.advisor.id] == w.advisor
    else if w.InsertIntake? then w.intake.id in db.intakes && db.intakes[w.intake.id] == w.intake
    else if w.InsertReview? || w.UpdateReview? then w.review.id in db.reviews && db.reviews[w.review.id] == w.review
    else if w.InsertPlan? || w.UpdatePlan? then w.plan.id in db.plans && db.plans[w.plan.id] == w.plan
    else if w.InsertConversion? || w.UpdateConversion? then
      w.conversion.id in db.conversions && db.conversions[w.conversion.id] == w.conversion
    else if w.InsertReceiptAndEvent? then
      w.receipt.id in db.receipts && db.receipts[w.receipt.id] == w.receipt
      && w.event.id in db.outbox && db.outbox[w.event.id] == w.event
    else if w.UpdateReceipt? then w.receipt.id in db.receipts && db.receipts[w.receipt.id] == w.receipt
    else w.event.id in db.outbox && db.outbox[w.event.id] == w.event
  }

  lemma PointStored(q: Request, s: Samples, cur: World, db: Db)
    requires q.ActivateCollectionPoint? && Commits(q, s, cur, db)
    ensures Stored(db, Decide(q, s).w)
  {
    PastPoint(s, 0, cur, q.pointId);
  }

  lemma CampaignStored(q: Request, s: Samples, cur: World, db: Db)
    requires q.TransitionCampaign? && Commits(q, s, cur, db)
    ensures Stored(db, Decide(q, s).w)
  {
    PastCampaign(s, 0, cur, q.campaignId);
  }

  lemma ReviewStored(q: Request, s: Samples, cur: World, db: Db)
    requires q.DecideReview? && Commits(q, s, cur, db)
    ensures Stored(db, Decide(q, s).w)
  {
    PastReview(s, 0, cur, q.reviewId);
  }

  lemma PlanStored(q: Request, s: Samples, cur: World, db: Db)
    requires q.TransitionHandlingPlan? && Commits(q, s, cur, db)
    ensures Stored(db, Decide(q, s).w)
  {
    PastPlan(s, 0, cur, q.planId);
  }

  lemma ConversionStored(q: Request, s: Samples, cur: World, db: Db)
    requires q.VerifyConversion? && Commits(q, s, cur, db)
    ensures Stored(db, Decide(q, s).w)
  {
    PastConversion(s, 0, cur, ConversionOf(s[0].db, q.suggestionId).value);
  }

  lemma ReceiptStored(q: Request, s: Samples, cur: World, db: Db)
    requires (q.ClaimFeedback? || q.CompleteFeedback?) && Commits(q, s, cur, db)
    ensures Stored(db, Decide(q, s).w)
  {
    PastReceipt(s, if q.ClaimFeedback? then 1 else 0, cur, q.receiptId);
  }

  lemma EventStored(q: Request, s: Samples, cur: World, db: Db)
    requires (q.ClaimOutbox? || q.CompleteOutbox?) && Commits(q, s, cur, db)
    ensures Stored(db, Decide(q, s).w)
  {
    PastEvent(s, if q.ClaimOutbox? then 1 else 0, cur, q.eventId);
  }

  predicate Inserts(w: Write) {
    w.InsertCampaign? || w.InsertPoint? || w.InsertAdvisor? || w.InsertIntake? || w.InsertReview?
    || w.InsertPlan? || w.InsertConversion? || w.InsertReceiptAndEvent?
  }

  lemma InsertedRowsAreStored(db: Db, w: Write)
    requires Inserts(w) && Apply(db, w).Ok?
    ensures Stored(Apply(db, w).value, w)
  {
  }

  /** Whatever an operation commits, however stale its samples, ends up in the tables row for row. */
  lemma CommitStores(q: Request, s: Samples, cur: World, db: Db)
    requires Commits(q, s, cur, db)
    ensures Stored(db, Decide(q, s).w)
  {
    if q.ActivateCollectionPoint? { PointStored(q, s, cur, db); }
    else if q.TransitionCampaign? { CampaignStored(q, s, cur, db); }
    else if q.DecideReview? { ReviewStored(q, s, cur, db); }
    else if q.TransitionHandlingPlan? { PlanStored(q, s, cur, db); }
    else if q.VerifyConversion? { ConversionStored(q, s, cur, db); }
    else if q.ClaimFeedback? || q.CompleteFeedback? { ReceiptStored(q, s, cur, db); }
    else if q.ClaimOutbox? || q.CompleteOutbox? { EventStored(q, s, cur, db); }
    else { InsertedRowsAreStored(cur.db, Decide(q, s).w); }
  }
}
