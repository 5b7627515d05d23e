/** The SQLite tables as a mutable object, and the write statements of internal/index/civic_writes.go: which error
    each statement gives and when, which columns it sets and which it keeps, and that nothing else changes. */
module CivicIndexes {
  import opened Outcomes
  import opened Durations
  import opened CivicDomain
  import opened CivicTables

  function ErrorOf<T>(r: Result<T>): Option<Error> {
    if r.Ok? then None else Some(r.error)
  }

  class CivicIndex {
    var db: Db

    constructor ()
      ensures db == EMPTY_DB
    {
      db := EMPTY_DB;
    }

    /** Rollback of a transaction that began on `before`. */
    method Rollback(before: Db)
      modifies this
      ensures db == before
    {
      db := before;
    }

    method InsertCampaign(c: Campaign) returns (err: Option<Error>)
      modifies this
      ensures err == if MayInsertCampaign(old(db), c) then None else Some(ConstraintViolated)
      ensures err.None? <==> c.id !in old(db).campaigns
                             && forall i :: i in old(db).campaigns ==> old(db).campaigns[i].code != c.code
      ensures db == if err.None? then old(db).(campaigns := old(db).campaigns[c.id := c]) else old(db)
    {
      if !MayInsertCampaign(db, c) {
        return Some(ConstraintViolated);
      }
      db := db.(campaigns := db.campaigns[c.id := c]);
      return None;
    }

    method InsertPoint(p: CollectionPoint) returns (err: Option<Error>)
      modifies this
      ensures err == if MayInsertPoint(old(db), p) then None else Some(ConstraintViolated)
      ensures err.None? <==> p.id !in old(db).points && p.campaignId in old(db).campaigns && p.dailyQuota > 0
                             && forall i :: i in old(db).points && old(db).points[i].campaignId == p.campaignId
                                            && old(db).points[i].district == p.district
                                            ==> old(db).points[i].name != p.name
      ensures db == if err.None? then old(db).(points := old(db).points[p.id := p]) else old(db)
    {
      if !MayInsertPoint(db, p) {
        return Some(ConstraintViolated);
      }
      db := db.(points := db.points[p.id := p]);
      return None;
    }

    method InsertAdvisor(a: Advisor) returns (err: Option<Error>)
      modifies this
      ensures err == if MayInsertAdvisor(old(db), a) then None else Some(ConstraintViolated)
      ensures err.None? <==> a.id !in old(db).advisors && a.campaignId in old(db).campaigns && a.reviewQuota > 0
                             && forall i :: i in old(db).advisors && old(db).advisors[i].campaignId == a.campaignId
                                            ==> old(db).advisors[i].userId != a.userId
      ensures db == if err.None? then old(db).(advisors := old(db).advisors[a.id := a]) else old(db)
    {
      if !MayInsertAdvisor(db, a) {
        return Some(ConstraintViolated);
      }
      db := db.(advisors := db.advisors[a.id := a]);
      return None;
    }

    method InsertIntake(n: Intake) returns (err: Option<Error>)
      modifies this
      ensures err == if MayInsertIntake(old(db), n) then None else Some(ConstraintViolated)
      ensures err.None? <==> n.id !in old(db).intakes && n.suggestionId in old(db).items
                             && n.campaignId in old(db).campaigns && n.pointId in old(db).points
                             && (forall i :: i in old(db).intakes ==>
                                   old(db).intakes[i].suggestionId != n.suggestionId
                                   && (old(db).intakes[i].campaignId != n.campaignId
                                       || old(db).intakes[i].key != n.key))
                             && |set i | i in old(db).intakes && old(db).intakes[i].pointId == n.pointId
                                         && DayOf(old(db).intakes[i].acceptedAt) == DayOf(n.acceptedAt)|
                                < old(db).points[n.pointId].dailyQuota
      ensures db == if err.None? then old(db).(intakes := old(db).intakes[n.id := n]) else old(db)
    {
      if !MayInsertIntake(db, n) {
        return Some(ConstraintViolated);
      }
      db := db.(intakes := db.intakes[n.id := n]);
      return None;
    }

    method InsertReview(r: Review) returns (err: Option<Error>)
      modifies this
      ensures err == if MayInsertReview(old(db), r) then None else Some(ConstraintViolated)
      ensures err.None? <==> r.id !in old(db).reviews && r.suggestionId in old(db).items
                             && r.advisorId in old(db).advisors
                             && (forall i :: i in old(db).reviews && old(db).reviews[i].advisorId == r.advisorId ==>
                                   old(db).reviews[i].suggestionId != r.suggestionId
                                   && old(db).reviews[i].panelKey != r.panelKey)
                             && (old(db).advisors[r.advisorId].active ==>
                                   |set i | i in old(db).reviews && old(db).reviews[i].advisorId == r.advisorId
                                            && old(db).reviews[i].verdict == ReviewPending|
                                   < old(db).advisors[r.advisorId].reviewQuota)
      ensures db == if err.None? then old(db).(reviews := old(db).reviews[r.id := r]) else old(db)
    {
      if !MayInsertReview(db, r) {
        return Some(ConstraintViolated);
      }
      db := db.(reviews := db.reviews[r.id := r]);
      return None;
    }

    method InsertPlan(p: HandlingPlan) returns (err: Option<Error>)
      modifies this
      ensures err == if MayInsertPlan(old(db), p) then None else Some(ConstraintViolated)
      ensures err.None? <==> p.id !in old(db).plans && p.suggestionId in old(db).items && p.reviewId in old(db).reviews
                             && forall i :: i in old(db).plans && old(db).plans[i].suggestionId == p.suggestionId ==>
                                  old(db).plans[i].key != p.key
      ensures db == if err.None? then old(db).(plans := old(db).plans[p.id := p]) else old(db)
    {
      if !MayInsertPlan(db, p) {
        return Some(ConstraintViolated);
      }
      db := db.(plans := db.plans[p.id := p]);
      return None;
    }

    method InsertConversion(o: Conversion) returns (err: Option<Error>)
      modifies this
      ensures err == if MayInsertConversion(old(db), o) then None else Some(ConstraintViolated)
      ensures err.None? <==> o.id !in old(db).conversions && o.suggestionId in old(db).items
                             && o.planId in old(db).plans
                             && forall i :: i in old(db).conversions ==>
                                  old(db).conversions[i].suggestionId != o.suggestionId
      ensures db == if err.None? then old(db).(conversions := old(db).conversions[o.id := o]) else old(db)
    {
      if !MayInsertConversion(db, o) {
        return Some(ConstraintViolated);
      }
      db := db.(conversions := db.conversions[o.id := o]);
      return None;
    }

    method InsertReceipt(r: Receipt) returns (err: Option<Error>)
      modifies this
      ensures err == if MayInsertReceipt(old(db), r) then None else Some(ConstraintViolated)
      ensures err.None? <==> r.id !in old(db).receipts && r.suggestionId in old(db).items
                             && forall i :: i in old(db).receipts
                                            && old(db).receipts[i].suggestionId == r.suggestionId
                                            && old(db).receipts[i].citizenHash == r.citizenHash
                                            ==> old(db).receipts[i].channel != r.channel
      ensures db == if err.None? then old(db).(receipts := old(db).receipts[r.id := r]) else old(db)
    {
      if !MayInsertReceipt(db, r) {
        return Some(ConstraintViolated);
      }
      db := db.(receipts := db.receipts[r.id := r]);
      return None;
    }

    method InsertEvent(e: OutboxEvent) returns (err: Option<Error>)
      modifies this
      ensures err == if MayInsertEvent(old(db), e) then None else Some(ConstraintViolated)
      ensures err.None? <==> e.id !in old(db).outbox
                             && forall i :: i in old(db).outbox ==> old(db).outbox[i].key != e.key
      ensures db == if err.None? then old(db).(outbox := old(db).outbox[e.id := e]) else old(db)
    {
      if !MayInsertEvent(db, e) {
        return Some(ConstraintViolated);
      }
      db := db.(outbox := db.outbox[e.id := e]);
      return None;
    }

    method UpdateCampaign(c: Campaign, expected: int) returns (err: Option<Error>)
      modifies this
      ensures err == if c.id in old(db).campaigns && old(db).campaigns[c.id].version == expected then None
              else Some(ConcurrentConflict)
      ensures err.Some? ==> db == old(db)
      ensures err.None? ==>
        c.id in db.campaigns && db == old(db).(campaigns := old(db).campaigns[c.id := db.campaigns[c.id]])
        && var was, row := old(db).campaigns[c.id], db.campaigns[c.id];
        row.title == c.title && row.theme == c.theme && row.status == c.status && row.opensAt == c.opensAt
        && row.closesAt == c.closesAt && row.version == c.version && row.updatedAt == c.updatedAt
        && row.id == was.id && row.code == was.code && row.createdAt == was.createdAt
    {
      if !(c.id in db.campaigns && db.campaigns[c.id].version == expected) {
        return Some(ConcurrentConflict);
      }
      db := db.(campaigns := db.campaigns[c.id := SetCampaign(db.campaigns[c.id], c)]);
      return None;
    }

    method UpdatePoint(p: CollectionPoint, expected: int) returns (err: Option<Error>)
      modifies this
      ensures err == if !(p.id in old(db).points && old(db).points[p.id].version == expected)
              then Some(ConcurrentConflict)
                     else if !MayRewritePoint(old(db), p) then Some(ConstraintViolated) else None
      ensures err == Some(ConstraintViolated) <==>
                p.id in old(db).points && old(db).points[p.id].version == expected
                && (p.dailyQuota <= 0
                    || exists i :: i in old(db).points && i != p.id
                                   && old(db).points[i].campaignId == old(db).points[p.id].campaignId
                                   && old(db).points[i].district == p.district && old(db).points[i].name == p.name)
      ensures err.Some? ==> db == old(db)
      ensures err.None? ==>
        p.id in db.points && db == old(db).(points := old(db).points[p.id := db.points[p.id]])
        && var was, row := old(db).points[p.id], db.points[p.id];
        row.district == p.district && row.name == p.name && row.address == p.address && row.topic == p.topic
        && row.dailyQuota == p.dailyQuota && row.status == p.status && row.version == p.version
        && row.activatedAt == p.activatedAt && row.updatedAt == p.updatedAt
        && row.id == was.id && row.campaignId == was.campaignId && row.createdAt == was.createdAt
    {
      if !(p.id in db.points && db.points[p.id].version == expected) {
        return Some(ConcurrentConflict);
      }
      if !MayRewritePoint(db, p) {
        return Some(ConstraintViolated);
      }
      db := db.(points := db.points[p.id := SetPoint(db.points[p.id], p)]);
      return None;
    }

    method UpdateReview(r: Review, expected: int) returns (err: Option<Error>)
      modifies this
      ensures err == if r.id in old(db).reviews && old(db).reviews[r.id].version == expected then None
              else Some(ConcurrentConflict)
      ensures err.Some? ==> db == old(db)
      ensures err.None? ==>
        r.id in db.reviews && db == old(db).(reviews := old(db).reviews[r.id := db.reviews[r.id]])
        && var was, row := old(db).reviews[r.id], db.reviews[r.id];
        row.verdict == r.verdict && row.notes == r.notes && row.version == r.version && row.reviewedAt == r.reviewedAt
        && row.id == was.id && row.suggestionId == was.suggestionId && row.advisorId == was.advisorId
        && row.panelKey == was.panelKey && row.assignedAt == was.assignedAt
    {
      if !(r.id in db.reviews && db.reviews[r.id].version == expected) {
        return Some(ConcurrentConflict);
      }
      db := db.(reviews := db.reviews[r.id := SetReview(db.reviews[r.id], r)]);
      return None;
    }

    method UpdatePlan(p: HandlingPlan, expected: int) returns (err: Option<Error>)
      modifies this
      ensures err == if p.id in old(db).plans && old(db).plans[p.id].version == expected then None
              else Some(ConcurrentConflict)
      ensures err.Some? ==> db == old(db)
      ensures err.None? ==>
        p.id in db.plans && db == old(db).(plans := old(db).plans[p.id := db.plans[p.id]])
        && var was, row := old(db).plans[p.id], db.plans[p.id];
        row.commitment == p.commitment && row.status == p.status && row.dueAt == p.dueAt && row.version == p.version
        && row.updatedAt == p.updatedAt
        && row.id == was.id && row.suggestionId == was.suggestionId && row.reviewId == was.reviewId
        && row.department == was.department && row.key == was.key && row.createdAt == was.createdAt
    {
      if !(p.id in db.plans && db.plans[p.id].version == expected) {
        return Some(ConcurrentConflict);
      }
      db := db.(plans := db.plans[p.id := SetPlan(db.plans[p.id], p)]);
      return None;
    }

    method UpdateConversion(o: Conversion, expected: int) returns (err: Option<Error>)
      modifies this
      ensures err == if o.id in old(db).conversions && old(db).conversions[o.id].version == expected then None
              else Some(ConcurrentConflict)
      ensures err.Some? ==> db == old(db)
      ensures err.None? ==>
        o.id in db.conversions && db == old(db).(conversions := old(db).conversions[o.id := db.conversions[o.id]])
        && var was, row := old(db).conversions[o.id], db.conversions[o.id];
        row.status == o.status && row.benefitScope == o.benefitScope && row.evidenceRef == o.evidenceRef
        && row.reviewer == o.reviewer && row.version == o.version && row.verifiedAt == o.verifiedAt
        && row.publishedAt == o.publishedAt
        && row.id == was.id && row.suggestionId == was.suggestionId && row.planId == was.planId
        && row.createdAt == was.createdAt
    {
      if !(o.id in db.conversions && db.conversions[o.id].version == expected) {
        return Some(ConcurrentConflict);
      }
      db := db.(conversions := db.conversions[o.id := SetConversion(db.conversions[o.id], o)]);
      return None;
    }

    method UpdateReceipt(r: Receipt, expected: int) returns (err: Option<Error>)
      modifies this
      ensures err == if r.id in old(db).receipts && old(db).receipts[r.id].version == expected then None
              else Some(ConcurrentConflict)
      ensures err.Some? ==> db == old(db)
      ensures err.None? ==>
        r.id in db.receipts && db == old(db).(receipts := old(db).receipts[r.id := db.receipts[r.id]])
        && var was, row := old(db).receipts[r.id], db.receipts[r.id];
        row.status == r.status && row.attempt == r.attempt && row.nextAttemptAt == r.nextAttemptAt
        && row.leaseUntil == r.leaseUntil && row.lastError == r.lastError && row.version == r.version
        && row.updatedAt == r.updatedAt
        && row.id == was.id && row.suggestionId == was.suggestionId && row.citizenHash == was.citizenHash
        && row.channel == was.channel && row.createdAt == was.createdAt
    {
      if !(r.id in db.receipts && db.receipts[r.id].version == expected) {
        return Some(ConcurrentConflict);
      }
      db := db.(receipts := db.receipts[r.id := SetReceipt(db.receipts[r.id], r)]);
      return None;
    }

    method UpdateEvent(e: OutboxEvent, expected: int) returns (err: Option<Error>)
      modifies this
      ensures err == if e.id in old(db).outbox && old(db).outbox[e.id].version == expected then None
              else Some(ConcurrentConflict)
      ensures err.Some? ==> db == old(db)
      ensures err.None? ==>
        e.id in db.outbox && db == old(db).(outbox := old(db).outbox[e.id := db.outbox[e.id]])
        && var was, row := old(db).outbox[e.id], db.outbox[e.id];
        row.status == e.status && row.attempt == e.attempt && row.version == e.version
        && row.availableAt == e.availableAt && row.leaseUntil == e.leaseUntil && row.updatedAt == e.updatedAt
        && row.id == was.id && row.aggregateId == was.aggregateId && row.key == was.key
        && row.createdAt == was.createdAt
    {
      if !(e.id in db.outbox && db.outbox[e.id].version == expected) {
        return Some(ConcurrentConflict);
      }
      db := db.(outbox := db.outbox[e.id := SetEvent(db.outbox[e.id], e)]);
      return None;
    }
  }
}
