/** What the decisions amount to, column by column: when an operation of internal/service/civic_service.go goes on
    to its transaction, when it is answered with a row that is there, and what it is turned down for. */
module CivicAnswers {
  import opened Outcomes
  import opened SuggestionStatus
  import opened CivicDomain
  import opened CivicTables
  import opened CivicProtocol
  import opened CivicSafety

  /** A point is activated in a campaign that has not passed its open phase, once. */
  lemma ActivationDecision(q: Request, s: Samples)
    requires q.ActivateCollectionPoint?
    ensures var d := Decide(q, s);
            if q.pointId !in s[0].db.points then d == Rejected(NotFound)
            else
              var p := s[0].db.points[q.pointId];
              var running := p.campaignId in s[1].db.campaigns
                             && s[1].db.campaigns[p.campaignId].status in {CampaignDraft, CampaignOpen};
              && (d.Commit? <==> running && p.status in {PointPreparing, PointPaused})
              && (d.Existing? <==> running && p.status == PointActive)
              && (d == Rejected(NotFound) <==> p.campaignId !in s[1].db.campaigns)
              && (d.Rejected? ==> d.error in {NotFound, InvalidTransition})
  {
  }

  /** A campaign moves one phase on, and neither into the open nor the review phase without an active point. */
  lemma CampaignMoveDecision(q: Request, s: Samples)
    requires q.TransitionCampaign?
    ensures var d := Decide(q, s);
            if q.campaignId !in s[0].db.campaigns then d == Rejected(NotFound)
            else
              var active := exists i :: i in s[1].db.points && s[1].db.points[i].campaignId == q.campaignId
                                        && s[1].db.points[i].status == PointActive;
              var needed := q.toCampaign == CampaignOpen || q.toCampaign == CampaignReview;
              var next := (s[0].db.campaigns[q.campaignId].status, q.toCampaign)
                          in {(CampaignDraft, CampaignOpen), (CampaignOpen, CampaignReview),
                              (CampaignReview, CampaignClosed)};
              && (d.Commit? <==> next && (needed ==> active))
              && (d == Rejected(Validation) <==> needed && !active)
              && (d == Rejected(InvalidTransition) <==> !next && (needed ==> active))
  {
  }

  /** An intake goes on exactly when its key is new, the suggestion exists and is not taken in, the campaign is open,
      the clock is in its window, the point is an active one of it, and the day's count is below the quota. */
  lemma IntakeDecision(q: Request, s: Samples)
    requires q.IntakeSuggestion?
    ensures var d, now := Decide(q, s), s[4].clock;
            var known := exists i :: i in s[0].db.intakes && s[0].db.intakes[i].campaignId == q.campaignId
                                     && s[0].db.intakes[i].key == q.key;
            var taken := exists i :: i in s[2].db.intakes && s[2].db.intakes[i].suggestionId == q.suggestionId;
            var open := q.campaignId in s[3].db.campaigns
                        && var c := s[3].db.campaigns[q.campaignId];
                           c.status == CampaignOpen && c.opensAt <= now < c.closesAt;
            var active := q.campaignId in s[3].db.campaigns && q.pointId in s[5].db.points
                          && var p := s[5].db.points[q.pointId];
                             p.campaignId == s[3].db.campaigns[q.campaignId].id && p.status == PointActive;
            var full := q.pointId in s[5].db.points
                        && var p := s[5].db.points[q.pointId];
                           |set i | i in s[6].db.intakes && s[6].db.intakes[i].pointId == p.id
                                    && q.dayStart <= s[6].db.intakes[i].acceptedAt < q.dayEnd| >= p.dailyQuota;
            && (d.Existing? <==> q.key != "" && known)
            && (d.Commit? <==> q.key != "" && !known && q.suggestionId in s[1].db.items && !taken && open && active
                               && !full)
            && (d.Rejected? ==>
                  match d.error
                  case Validation => q.key == "" || !active
                  case NotFound => q.suggestionId !in s[1].db.items || q.campaignId !in s[3].db.campaigns
                                   || q.pointId !in s[5].db.points
                  case Duplicate => taken
                  case InvalidTransition => !open
                  case ConcurrentConflict => full
                  case _ => false)
  {
  }

  /** A review is assigned exactly when the suggestion is open, the advisor is active and below the quota of pending
      reviews, and the advisor's campaign is open or in review. */
  lemma AssignmentDecision(q: Request, s: Samples)
    requires q.AssignReview?
    ensures var d := Decide(q, s);
            var open := q.suggestionId in s[0].db.items
                        && s[0].db.items[q.suggestionId] !in {StatusCompleted, StatusCancelled};
            var active := q.advisorId in s[1].db.advisors && s[1].db.advisors[q.advisorId].active;
            var running := q.advisorId in s[1].db.advisors
                           && var c := s[1].db.advisors[q.advisorId].campaignId;
                              c in s[2].db.campaigns && s[2].db.campaigns[c].status in {CampaignOpen, CampaignReview};
            var full := q.advisorId in s[1].db.advisors
                        && var a := s[1].db.advisors[q.advisorId];
                           |set i | i in s[3].db.reviews && s[3].db.reviews[i].advisorId == a.id
                                    && s[3].db.reviews[i].verdict == ReviewPending| >= a.reviewQuota;
            && !d.Existing?
            && (d.Commit? <==> open && active && running && !full && Trim(q.panelKey) != "")
            && (d.Rejected? ==>
                  match d.error
                  case NotFound => q.suggestionId !in s[0].db.items || q.advisorId !in s[1].db.advisors || !running
                  case InvalidTransition => !open || !running
                  case Validation => !active || Trim(q.panelKey) == ""
                  case ConcurrentConflict => full
                  case _ => false)
  {
  }

  /** A review is decided once, with a verdict and with notes. */
  lemma VerdictDecision(q: Request, s: Samples)
    requires q.DecideReview?
    ensures var d := Decide(q, s);
            if q.reviewId !in s[0].db.reviews then d == Rejected(NotFound)
            else
              var pending := s[0].db.reviews[q.reviewId].verdict == ReviewPending;
              && (d.Commit? <==> pending && q.verdict != ReviewPending && Trim(q.notes) != "")
              && (d == Rejected(InvalidTransition) <==> !pending)
              && (d.Rejected? ==> d.error in {InvalidTransition, Validation})
  {
  }

  /** A plan is made exactly when its key is new, its review has accepted the same suggestion, and it says who does
      what until a moment to come. */
  lemma PlanDecision(q: Request, s: Samples)
    requires q.CreateHandlingPlan?
    ensures var d := Decide(q, s);
            var known := exists i :: i in s[0].db.plans && s[0].db.plans[i].suggestionId == q.suggestionId
                                     && s[0].db.plans[i].key == q.key;
            var accepted := q.reviewId in s[1].db.reviews
                            && s[1].db.reviews[q.reviewId].suggestionId == q.suggestionId
                            && s[1].db.reviews[q.reviewId].verdict == ReviewAccepted;
            var complete := q.department != "" && q.commitment != "" && s[2].clock < q.dueAt;
            && (d.Existing? <==> q.key != "" && known)
            && (d.Commit? <==> q.key != "" && !known && accepted && complete)
            && (d.Rejected? ==>
                  match d.error
                  case NotFound => q.reviewId !in s[1].db.reviews
                  case Validation => q.key == "" || (q.reviewId in s[1].db.reviews && !(accepted && complete))
                  case _ => false)
  {
  }

  /** A plan moves on by one status, or is cancelled while it is not over. */
  lemma PlanMoveDecision(q: Request, s: Samples)
    requires q.TransitionHandlingPlan?
    ensures var d := Decide(q, s);
            if q.planId !in s[0].db.plans then d == Rejected(NotFound)
            else
              var from := s[0].db.plans[q.planId].status;
              var allowed := match q.toPlan
                case HandlingProposed => false
                case HandlingAccepted => from == HandlingProposed
                case HandlingImplementing => from == HandlingAccepted
                case HandlingCompleted => from == HandlingImplementing
                case HandlingCancelled => from != HandlingCompleted && from != HandlingCancelled;
              (d.Commit? <==> allowed) && (d == Rejected(InvalidTransition) <==> !allowed)
  {
  }

  /** A conversion is proposed exactly when there is none yet, the suggestion is completed and all its plans are, the
      plan is one of them, and scope and evidence are given. */
  lemma ProposalDecision(q: Request, s: Samples)
    requires q.ProposeConversion?
    ensures var d := Decide(q, s);
            var known := exists i :: i in s[0].db.conversions && s[0].db.conversions[i].suggestionId == q.suggestionId;
            var done := q.suggestionId in s[1].db.items && s[1].db.items[q.suggestionId] == StatusCompleted
                        && forall i :: i in s[2].db.plans && s[2].db.plans[i].suggestionId == q.suggestionId ==>
                             s[2].db.plans[i].status == HandlingCompleted;
            var own := q.planId in s[2].db.plans && s[2].db.plans[q.planId].suggestionId == q.suggestionId;
            && (d.Existing? <==> known)
            && (d.Commit? <==> !known && done && own && q.benefitScope != "" && q.evidenceRef != "")
            && (d.Rejected? ==>
                  match d.error
                  case NotFound => q.suggestionId !in s[1].db.items
                  case InvalidTransition => !done
                  case Validation => !own || q.benefitScope == "" || q.evidenceRef == ""
                  case _ => false)
  {
  }

  /** A conversion is verified, or published, exactly while it is proposed or verified. */
  lemma VerificationDecision(q: Request, s: Samples)
    requires q.VerifyConversion? && ConversionsUnique(s[0].db)
    ensures var d := Decide(q, s);
            && (d == Rejected(NotFound) <==> !HasConversion(s[0].db, q.suggestionId))
            && (d.Commit? <==> exists i :: i in s[0].db.conversions
                                 && s[0].db.conversions[i].suggestionId == q.suggestionId
                                 && s[0].db.conversions[i].status in {ConversionProposed, ConversionVerified})
            && (d.Rejected? ==> d.error in {NotFound, InvalidTransition})
  {
  }

  /** Feedback is queued exactly when this citizen's on this channel is not yet, and a conversion is published. */
  lemma FeedbackDecision(q: Request, s: Samples)
    requires q.QueueFeedback? && ConversionsUnique(s[1].db)
    ensures var d := Decide(q, s);
            var named := q.citizenHash != "" && q.channel != "";
            var known := exists i :: i in s[0].db.receipts && s[0].db.receipts[i].suggestionId == q.suggestionId
                                     && s[0].db.receipts[i].citizenHash == q.citizenHash
                                     && s[0].db.receipts[i].channel == q.channel;
            var published := exists i :: i in s[1].db.conversions
                                         && s[1].db.conversions[i].suggestionId == q.suggestionId
                                         && s[1].db.conversions[i].status == ConversionPublished;
            && (d.Existing? <==> named && known)
            && (d.Commit? <==> named && !known && published)
            && (d.Rejected? ==>
                  match d.error
                  case Validation => !named
                  case NotFound => !HasConversion(s[1].db, q.suggestionId)
                  case InvalidTransition => HasConversion(s[1].db, q.suggestionId) && !published
                  case _ => false)
  {
  }
}
