/** What becomes of a call that repeats an earlier one: the row of the first call stays, it is the only one under its
    key, and the second call is answered with it. */
module CivicRepeats {
  import opened Outcomes
  import opened CivicDomain
  import opened CivicTables
  import opened CivicProtocol
  import opened CivicEvolution
  import opened CivicEffects
  import opened CivicSafety
  import opened CivicDelivery
  import opened CivicKeys
  import opened CivicAnswers

  /** What a later world still has of an earlier one, and its keys. */
  lemma LaterWorld(run: Run, j: nat, k: nat)
    requires ValidRun(run) && j <= k < |run.worlds|
    ensures Evolves(run.worlds[j].db, run.worlds[k].db) && UniqueKeys(run.worlds[k].db)
    ensures Keyed(run.worlds[k].db) && CodesTrimmed(run.worlds[k].db)
  {
    hide Evolves, UniqueKeys, References, Keyed, CodesTrimmed, ValidRun;
    RunSafeUpTo(run, k);
    KeysAlwaysHold(run, k);
    assert Evolves(run.worlds[j].db, run.worlds[k].db) && Safe(run.worlds[k]);
  }

  /******* Intakes *******/

  /** The only row of an intake under its campaign and key. */
  ghost predicate OnlyIntake(db: Db, campaignId: Id, key: string, i: Id) {
    && i in db.intakes && db.intakes[i].campaignId == campaignId && db.intakes[i].key == key
    && forall n :: n in db.intakes && db.intakes[n].campaignId == campaignId && db.intakes[n].key == key ==> n == i
  }

  lemma IntakeStays(run: Run, j: nat, k: nat, i: Id)
    requires ValidRun(run) && j <= k < |run.worlds| && i in run.worlds[j].db.intakes
    ensures var row, db := run.worlds[j].db.intakes[i], run.worlds[k].db;
            OnlyIntake(db, row.campaignId, row.key, i) && db.intakes[i] == row
  {
    hide ValidRun, CodesTrimmed;
    LaterWorld(run, j, k);
    var row, db := run.worlds[j].db.intakes[i], run.worlds[k].db;
    assert IntakeStep(row, db.intakes[i]);
    forall n | n in db.intakes && db.intakes[n].campaignId == row.campaignId && db.intakes[n].key == row.key
      ensures n == i
    {
      assert SameIntake(db.intakes[n], db.intakes[i]);
    }
  }

  lemma IntakeFiled(run: Run, j: nat)
    requires ValidRun(run) && j < |run.events| && run.events[j].Committed? && run.events[j].request.IntakeSuggestion?
    ensures var q, db := run.events[j].request, run.worlds[j + 1].db;
            && q.key != "" && q.id in db.intakes
            && db.intakes[q.id] == Intake(q.id, q.suggestionId, q.campaignId, q.pointId, q.key, q.source,
                                          db.intakes[q.id].acceptedAt)
  {
    hide Apply;
    assert Next(run.worlds, j, run.events[j]);
    CommitEffect(run, j);
  }

  /** From the commit of an intake on, its row is in every world, unchanged and the only one under its campaign and
      key, and a call under the same campaign and key is answered with that row, whatever else it asks for. */
  lemma RepeatedIntake(run: Run, j: nat, k: nat, again: Request, at: seq<nat>)
    requires ValidRun(run) && j < |run.events| && j < k < |run.worlds|
    requires run.events[j].Committed? && run.events[j].request.IntakeSuggestion?
    requires again.IntakeSuggestion? && Sampling(at, k) && j < at[0]
    requires again.campaignId == run.events[j].request.campaignId && again.key == run.events[j].request.key
    ensures var q, row := run.events[j].request, run.worlds[j + 1].db.intakes;
            && q.id in row && row[q.id].suggestionId == q.suggestionId
            && OnlyIntake(run.worlds[k].db, q.campaignId, q.key, q.id) && run.worlds[k].db.intakes[q.id] == row[q.id]
            && OnlyIntake(run.worlds[at[0]].db, q.campaignId, q.key, q.id)
            && Decide(again, Sample(run.worlds, at)) == Existing
  {
    hide Decide, ValidRun;
    var q := run.events[j].request;
    IntakeFiled(run, j);
    IntakeStays(run, j + 1, k, q.id);
    IntakeStays(run, j + 1, at[0], q.id);
    IntakeDecision(again, Sample(run.worlds, at));
    assert Sample(run.worlds, at)[0] == run.worlds[at[0]];
  }

  /******* Handling plans *******/

  ghost predicate OnlyPlan(db: Db, suggestionId: Id, key: string, i: Id) {
    && i in db.plans && db.plans[i].id == i && db.plans[i].suggestionId == suggestionId && db.plans[i].key == key
    && forall n :: n in db.plans && db.plans[n].suggestionId == suggestionId && db.plans[n].key == key ==> n == i
  }

  lemma PlanStays(run: Run, j: nat, k: nat, i: Id)
    requires ValidRun(run) && j <= k < |run.worlds| && i in run.worlds[j].db.plans
    ensures var row, db := run.worlds[j].db.plans[i], run.worlds[k].db;
            OnlyPlan(db, row.suggestionId, row.key, i) && db.plans[i].reviewId == row.reviewId
  {
    hide ValidRun, CodesTrimmed;
    LaterWorld(run, j, k);
    var row, db := run.worlds[j].db.plans[i], run.worlds[k].db;
    assert PlanStep(row, db.plans[i]);
    forall n | n in db.plans && db.plans[n].suggestionId == row.suggestionId && db.plans[n].key == row.key
      ensures n == i
    {
      assert SamePlanKey(db.plans[n], db.plans[i]);
    }
  }

  lemma PlanFiled(run: Run, j: nat)
    requires ValidRun(run) && j < |run.events| && run.events[j].Committed? && run.events[j].request.CreateHandlingPlan?
    ensures var q, db := run.events[j].request, run.worlds[j + 1].db;
            && q.key != "" && q.id in db.plans && db.plans[q.id].suggestionId == q.suggestionId
            && db.plans[q.id].key == q.key && db.plans[q.id].reviewId == q.reviewId
  {
    hide Apply;
    assert Next(run.worlds, j, run.events[j]);
    CommitEffect(run, j);
  }

  /** A plan stays the only one under its suggestion and key, however it moves on, and a call under the same
      suggestion and key is answered with it. */
  lemma RepeatedPlan(run: Run, j: nat, k: nat, again: Request, at: seq<nat>)
    requires ValidRun(run) && j < |run.events| && j < k < |run.worlds|
    requires run.events[j].Committed? && run.events[j].request.CreateHandlingPlan?
    requires again.CreateHandlingPlan? && Sampling(at, k) && j < at[0]
    requires again.suggestionId == run.events[j].request.suggestionId && again.key == run.events[j].request.key
    ensures var q := run.events[j].request;
            && OnlyPlan(run.worlds[k].db, q.suggestionId, q.key, q.id)
            && run.worlds[k].db.plans[q.id].reviewId == q.reviewId
            && OnlyPlan(run.worlds[at[0]].db, q.suggestionId, q.key, q.id)
            && Decide(again, Sample(run.worlds, at)) == Existing
  {
    hide Decide, ValidRun;
    var q := run.events[j].request;
    PlanFiled(run, j);
    PlanStays(run, j + 1, k, q.id);
    PlanStays(run, j + 1, at[0], q.id);
    PlanDecision(again, Sample(run.worlds, at));
    assert Sample(run.worlds, at)[0] == run.worlds[at[0]];
  }

  /******* Conversions *******/

  ghost predicate OnlyConversion(db: Db, suggestionId: Id, i: Id) {
    && i in db.conversions && db.conversions[i].id == i && db.conversions[i].suggestionId == suggestionId
    && forall n :: n in db.conversions && db.conversions[n].suggestionId == suggestionId ==> n == i
  }

  lemma ConversionStays(run: Run, j: nat, k: nat, i: Id)
    requires ValidRun(run) && j <= k < |run.worlds| && i in run.worlds[j].db.conversions
    ensures var row, db := run.worlds[j].db.conversions[i], run.worlds[k].db;
            OnlyConversion(db, row.suggestionId, i) && db.conversions[i].planId == row.planId
  {
    hide ValidRun, CodesTrimmed;
    LaterWorld(run, j, k);
    var row, db := run.worlds[j].db.conversions[i], run.worlds[k].db;
    assert ConversionStep(row, db.conversions[i]);
    forall n | n in db.conversions && db.conversions[n].suggestionId == row.suggestionId
      ensures n == i
    {
      assert SameBenefit(db.conversions[n], db.conversions[i]);
    }
  }

  lemma ConversionFiled(run: Run, j: nat)
    requires ValidRun(run) && j < |run.events| && run.events[j].Committed? && run.events[j].request.ProposeConversion?
    ensures var q, db := run.events[j].request, run.worlds[j + 1].db;
            q.id in db.conversions && db.conversions[q.id].suggestionId == q.suggestionId
            && db.conversions[q.id].planId == q.planId
  {
    hide Apply;
    CommitEffect(run, j);
  }

  /** The first conversion proposed for a suggestion stays its only one, with its plan, and every further proposal is
      answered with it, whatever plan, scope and evidence it names. */
  lemma RepeatedProposal(run: Run, j: nat, k: nat, again: Request, at: seq<nat>)
    requires ValidRun(run) && j < |run.events| && j < k < |run.worlds|
    requires run.events[j].Committed? && run.events[j].request.ProposeConversion?
    requires again.ProposeConversion? && Sampling(at, k) && j < at[0]
    requires again.suggestionId == run.events[j].request.suggestionId
    ensures var q := run.events[j].request;
            && OnlyConversion(run.worlds[k].db, q.suggestionId, q.id)
            && run.worlds[k].db.conversions[q.id].planId == q.planId
            && OnlyConversion(run.worlds[at[0]].db, q.suggestionId, q.id)
            && Decide(again, Sample(run.worlds, at)) == Existing
  {
    hide Decide, ValidRun;
    var q := run.events[j].request;
    ConversionFiled(run, j);
    ConversionStays(run, j + 1, k, q.id);
    ConversionStays(run, j + 1, at[0], q.id);
    ProposalDecision(again, Sample(run.worlds, at));
    assert Sample(run.worlds, at)[0] == run.worlds[at[0]];
  }

  /******* Feedback *******/

  ghost predicate OnlyReceipt(db: Db, suggestionId: Id, citizenHash: string, channel: string, i: Id) {
    && i in db.receipts && db.receipts[i].id == i && db.receipts[i].suggestionId == suggestionId
    && db.receipts[i].citizenHash == citizenHash && db.receipts[i].channel == channel
    && forall n ::
         n in db.receipts && db.receipts[n].suggestionId == suggestionId
         && db.receipts[n].citizenHash == citizenHash && db.receipts[n].channel == channel
         ==> n == i
  }

  lemma ReceiptStays(run: Run, j: nat, k: nat, i: Id)
    requires ValidRun(run) && j <= k < |run.worlds| && i in run.worlds[j].db.receipts
    ensures var row, db := run.worlds[j].db.receipts[i], run.worlds[k].db;
            OnlyReceipt(db, row.suggestionId, row.citizenHash, row.channel, i)
            && db.receipts[i].createdAt == row.createdAt
  {
    hide ValidRun, CodesTrimmed;
    LaterWorld(run, j, k);
    var row, db := run.worlds[j].db.receipts[i], run.worlds[k].db;
    assert ReceiptStep(row, db.receipts[i]);
    forall n | n in db.receipts && db.receipts[n].suggestionId == row.suggestionId
               && db.receipts[n].citizenHash == row.citizenHash && db.receipts[n].channel == row.channel
      ensures n == i
    {
      assert SameIdentity(db.receipts[n], db.receipts[i]);
    }
  }

  lemma ReceiptFiled(run: Run, j: nat)
    requires ValidRun(run) && j < |run.events| && run.events[j].Committed? && run.events[j].request.QueueFeedback?
    ensures var q, db := run.events[j].request, run.worlds[j + 1].db;
            && q.citizenHash != "" && q.channel != ""
            && q.id in db.receipts && db.receipts[q.id].suggestionId == q.suggestionId
            && db.receipts[q.id].citizenHash == q.citizenHash && db.receipts[q.id].channel == q.channel
  {
    hide Apply;
    assert Next(run.worlds, j, run.events[j]);
    CommitEffect(run, j);
  }

  /** A citizen is told once per suggestion and channel: the receipt stays the only one, through all its attempts, and
      every further call is answered with it. */
  lemma RepeatedFeedback(run: Run, j: nat, k: nat, again: Request, at: seq<nat>)
    requires ValidRun(run) && j < |run.events| && j < k < |run.worlds|
    requires run.events[j].Committed? && run.events[j].request.QueueFeedback?
    requires again.QueueFeedback? && Sampling(at, k) && j < at[0]
    requires again.suggestionId == run.events[j].request.suggestionId
             && again.citizenHash == run.events[j].request.citizenHash
             && again.channel == run.events[j].request.channel
    ensures var q := run.events[j].request;
            && OnlyReceipt(run.worlds[k].db, q.suggestionId, q.citizenHash, q.channel, q.id)
            && OnlyReceipt(run.worlds[at[0]].db, q.suggestionId, q.citizenHash, q.channel, q.id)
            && Decide(again, Sample(run.worlds, at)) == Existing
  {
    hide ValidRun;
    var q := run.events[j].request;
    ReceiptFiled(run, j);
    ReceiptStays(run, j + 1, k, q.id);
    ReceiptStays(run, j + 1, at[0], q.id);
    assert Sample(run.worlds, at)[0] == run.worlds[at[0]];
  }

  /******* Campaigns *******/

  ghost predicate OnlyCampaign(db: Db, code: string, i: Id) {
    && i in db.campaigns && db.campaigns[i].id == i && db.campaigns[i].code == code
    && forall n :: n in db.campaigns && db.campaigns[n].code == code ==> n == i
  }

  lemma CampaignStays(run: Run, j: nat, k: nat, i: Id)
    requires ValidRun(run) && j <= k < |run.worlds| && i in run.worlds[j].db.campaigns
    ensures OnlyCampaign(run.worlds[k].db, run.worlds[j].db.campaigns[i].code, i) && CodesTrimmed(run.worlds[k].db)
  {
    hide ValidRun, CodesTrimmed;
    LaterWorld(run, j, k);
    var row, db := run.worlds[j].db.campaigns[i], run.worlds[k].db;
    assert CampaignStep(row, db.campaigns[i]);
    forall n | n in db.campaigns && db.campaigns[n].code == row.code
      ensures n == i
    {
      assert SameCode(db.campaigns[n], db.campaigns[i]);
    }
  }

  lemma CampaignFiled(run: Run, j: nat)
    requires ValidRun(run) && j < |run.events| && run.events[j].Committed? && run.events[j].request.CreateCampaign?
    ensures var q, db := run.events[j].request, run.worlds[j + 1].db;
            q.id in db.campaigns && db.campaigns[q.id].code == Trim(q.code)
  {
    hide Apply;
    CommitEffect(run, j);
  }

  /** A code that is stored is known exactly when it is asked for as it is stored, without white space around it;
      asked for otherwise, it is only found to be taken by the INSERT. */
  lemma TakenCode(q: Request, s: Samples, db: Db, i: Id)
    requires q.CreateCampaign? && q.actor != "" && CodesTrimmed(s[0].db)
    requires i in s[0].db.campaigns && s[0].db.campaigns[i].code == Trim(q.code)
    requires i in db.campaigns && db.campaigns[i].code == Trim(q.code)
    ensures Decide(q, s) == Existing <==> q.code == Trim(q.code)
    ensures Decide(q, s).Commit? ==> Apply(db, Decide(q, s).w) == Err(ConstraintViolated)
  {
    hide Trim;
  }

  /** A campaign stays the only one of its code. A repeated creation is answered with it exactly when it gives the
      code without white space around it; otherwise the repetition is refused, and by the database alone. */
  lemma RepeatedCampaign(run: Run, j: nat, k: nat, again: Request, at: seq<nat>)
    requires ValidRun(run) && j < |run.events| && j < k < |run.worlds|
    requires run.events[j].Committed? && run.events[j].request.CreateCampaign?
    requires again.CreateCampaign? && again.actor != "" && Sampling(at, k) && j < at[0]
    requires Trim(again.code) == Trim(run.events[j].request.code)
    ensures var q, d := run.events[j].request, Decide(again, Sample(run.worlds, at));
            && OnlyCampaign(run.worlds[k].db, Trim(q.code), q.id)
            && OnlyCampaign(run.worlds[at[0]].db, Trim(q.code), q.id)
            && (d == Existing <==> again.code == Trim(again.code))
            && (d.Commit? ==> Apply(run.worlds[k].db, d.w) == Err(ConstraintViolated))
  {
    hide Decide, Apply, ValidRun, Trim;
    var q := run.events[j].request;
    CampaignFiled(run, j);
    CampaignStays(run, j + 1, k, q.id);
    CampaignStays(run, j + 1, at[0], q.id);
    assert Sample(run.worlds, at)[0] == run.worlds[at[0]];
    TakenCode(again, Sample(run.worlds, at), run.worlds[k].db, q.id);
  }
}
