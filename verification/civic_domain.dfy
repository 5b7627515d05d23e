/** The records and state machines of internal/domain/civic_workflow.go.
    Times are instants counted in nanoseconds; an absent time is `None`. */
module CivicDomain {
  import opened Outcomes

  type Id = string
  type Time = int

  datatype CampaignStatus = CampaignDraft | CampaignOpen | CampaignReview | CampaignClosed

  function Rank(s: CampaignStatus): nat {
    match s
    case CampaignDraft => 0
    case CampaignOpen => 1
    case CampaignReview => 2
    case CampaignClosed => 3
  }

  datatype Campaign = Campaign(
    id: Id, code: string, title: string, theme: string, status: CampaignStatus,
    opensAt: Time, closesAt: Time, version: int, createdAt: Time, updatedAt: Time)
  {
    predicate Valid() {
      Trim(code) != "" && Trim(title) != "" && opensAt < closesAt
    }

    function Transition(to: CampaignStatus): Result<Campaign> {
      var allowed := match status
        case CampaignDraft => {CampaignOpen}
        case CampaignOpen => {CampaignReview}
        case CampaignReview => {CampaignClosed}
        case CampaignClosed => {};
      if to in allowed then Ok(this.(status := to)) else Err(InvalidTransition)
    }
  }

  datatype PointStatus = PointPreparing | PointActive | PointPaused | PointRetired

  datatype CollectionPoint = CollectionPoint(
    id: Id, campaignId: Id, district: string, name: string, address: string, topic: string,
    dailyQuota: int, status: PointStatus, version: int, activatedAt: Option<Time>,
    createdAt: Time, updatedAt: Time)
  {
    predicate Valid() {
      campaignId != "" && district != "" && name != "" && dailyQuota > 0
    }
  }

  datatype Advisor = Advisor(
    id: Id, campaignId: Id, userId: Id, displayName: string, expertise: seq<string>,
    districts: seq<string>, reviewQuota: int, active: bool, version: int, enrolledAt: Time)
  {
    predicate Valid() {
      campaignId != "" && userId != "" && displayName != "" && reviewQuota > 0 && |expertise| > 0
    }
  }

  datatype Source = Online | Offline | ByAdvisor

  datatype Intake = Intake(
    id: Id, suggestionId: Id, campaignId: Id, pointId: Id, key: string, source: Source, acceptedAt: Time)

  datatype Verdict = ReviewPending | ReviewAccepted | ReviewRevise | ReviewRejected

  datatype Review = Review(
    id: Id, suggestionId: Id, advisorId: Id, panelKey: string, verdict: Verdict, notes: string,
    version: int, assignedAt: Time, reviewedAt: Option<Time>)
  {
    function Decide(to: Verdict, evidence: string, at: Time): Result<Review> {
      if verdict != ReviewPending then Err(InvalidTransition)
      else if to == ReviewPending then Err(Validation)
      else if Trim(evidence) == "" then Err(Validation)
      else Ok(this.(verdict := to, notes := evidence, reviewedAt := Some(at)))
    }
  }

  datatype HandlingStatus =
    | HandlingProposed | HandlingAccepted | HandlingImplementing | HandlingCompleted | HandlingCancelled

  datatype HandlingPlan = HandlingPlan(
    id: Id, suggestionId: Id, reviewId: Id, department: string, commitment: string,
    status: HandlingStatus, key: string, dueAt: Time, version: int, createdAt: Time, updatedAt: Time)
  {
    function Transition(to: HandlingStatus): Result<HandlingPlan> {
      var allowed := match status
        case HandlingProposed => {HandlingAccepted, HandlingCancelled}
        case HandlingAccepted => {HandlingImplementing, HandlingCancelled}
        case HandlingImplementing => {HandlingCompleted, HandlingCancelled}
        case HandlingCompleted => {}
        case HandlingCancelled => {};
      if to in allowed then Ok(this.(status := to)) else Err(InvalidTransition)
    }
  }

  datatype ConversionStatus = ConversionProposed | ConversionVerified | ConversionPublished | ConversionRejected

  datatype Conversion = Conversion(
    id: Id, suggestionId: Id, planId: Id, status: ConversionStatus, benefitScope: string,
    evidenceRef: string, reviewer: string, version: int, createdAt: Time,
    verifiedAt: Option<Time>, publishedAt: Option<Time>)

  datatype FeedbackStatus =
    | FeedbackQueued | FeedbackDelivering | FeedbackDelivered | FeedbackAcknowledged | FeedbackPermanentFailed

  datatype Receipt = Receipt(
    id: Id, suggestionId: Id, citizenHash: string, channel: string, status: FeedbackStatus,
    attempt: nat, nextAttemptAt: Time, leaseUntil: Option<Time>, lastError: string, version: int,
    createdAt: Time, updatedAt: Time)

  datatype OutboxStatus = OutboxPending | OutboxProcessing | OutboxPublished | OutboxFailed

  datatype OutboxEvent = OutboxEvent(
    id: Id, aggregateId: Id, status: OutboxStatus, attempt: nat, version: int, availableAt: Time,
    leaseUntil: Option<Time>, key: string, createdAt: Time, updatedAt: Time)

  /** The idempotency key that ties an outbox event to its receipt. */
  function FeedbackKey(receiptId: Id): string {
    "feedback:" + receiptId
  }

  predicate IsSpace(c: char) {
    c == ' ' || '\t' <= c <= '\r'
  }

  /** strings.TrimSpace on ASCII text. */
  function Trim(s: string): string {
    if |s| > 0 && IsSpace(s[0]) then Trim(s[1..])
    else if |s| > 0 && IsSpace(s[|s| - 1]) then Trim(s[..|s| - 1])
    else s
  }

  /** What is left is the middle of the text: all white space around it is gone, and none inside it. */
  lemma {:induction false} TrimIsMiddle(s: string) returns (from: nat, to: nat)
    ensures from <= to <= |s| && Trim(s) == s[from..to]
    ensures forall k :: 0 <= k < from || to <= k < |s| ==> IsSpace(s[k])
    ensures from < to ==> !IsSpace(s[from]) && !IsSpace(s[to - 1])
  {
    if |s| > 0 && IsSpace(s[0]) {
      from, to := TrimIsMiddle(s[1..]);
      from, to := from + 1, to + 1;
    } else if |s| > 0 && IsSpace(s[|s| - 1]) {
      from, to := TrimIsMiddle(s[..|s| - 1]);
    } else {
      from, to := 0, |s|;
    }
  }
}
