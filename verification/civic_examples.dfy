/** One history in which every check that a commit does not protect is overtaken: each of the six operations
    that have one commits although its check has stopped holding. */
module CivicExamples {
  import opened Outcomes
  import opened SuggestionStatus
  import opened CivicDomain
  import opened CivicTables
  import opened CivicProtocol
  import opened CivicSerial

  const CAMPAIGN := Campaign("c", "KM", "t", "", CampaignDraft, 0, 10, 1, 0, 0)
  const POINT := CollectionPoint("p", "c", "d", "n", "", "", 2, PointPreparing, 1, None, 0, 0)
  const SECOND_POINT := CollectionPoint("pp", "c", "dd", "n", "", "", 2, PointPreparing, 1, None, 0, 0)
  const ADVISOR := Advisor("a", "c", "x", "x", ["e"], [], 2, true, 1, 0)
  const SECOND_ADVISOR := Advisor("aa", "c", "xx", "x", ["e"], [], 2, true, 1, 0)
  const INTAKE := Intake("i", "s", "c", "p", "k", Online, 0)
  const REVIEW := Review("r", "s", "a", "k", ReviewPending, "", 1, 0, None)
  const ACCEPTED := Review("r", "s", "a", "k", ReviewAccepted, "n", 2, 0, Some(0))
  const OUTCOME := Conversion("o", "s", "h", ConversionProposed, "b", "e", "", 1, 0, None, None)

  function Activated(p: CollectionPoint): CollectionPoint {
    p.(status := PointActive, activatedAt := Some(0), version := 2)
  }

  function CampaignAt(s: CampaignStatus): Campaign {
    CAMPAIGN.(status := s, version := 1 + Rank(s))
  }

  function PlanAt(s: HandlingStatus, version: int): HandlingPlan {
    HandlingPlan("h", "s", "r", "d", "m", s, "k", 9, version, 0, 0)
  }

  function Db0(): Db {
    EMPTY_DB
  }

  function Db1(): Db {
    Db0().(campaigns := Db0().campaigns["c" := CAMPAIGN])
  }

  function Db2(): Db {
    Db1().(points := Db1().points["p" := POINT])
  }

  function Db3(): Db {
    Db2().(points := Db2().points["p" := Activated(POINT)])
  }

  function Db4(): Db {
    Db3().(items := Db3().items["s" := StatusAdjudicated])
  }

  function Db5(): Db {
    Db4().(advisors := Db4().advisors["a" := ADVISOR])
  }

  function Db6(): Db {
    Db5().(campaigns := Db5().campaigns["c" := CampaignAt(CampaignOpen)])
  }

  function Db7(): Db {
    Db6().(points := Db6().points["pp" := SECOND_POINT])
  }

  function Db8(): Db {
    Db7().(campaigns := Db7().campaigns["c" := CampaignAt(CampaignReview)])
  }

  function Db9(): Db {
    Db8().(intakes := Db8().intakes["i" := INTAKE])
  }

  function Db10(): Db {
    Db9().(points := Db9().points["pp" := Activated(SECOND_POINT)])
  }

  function Db11(): Db {
    Db10().(items := Db10().items["s" := StatusCompleted])
  }

  function Db12(): Db {
    Db11().(reviews := Db11().reviews["r" := REVIEW])
  }

  function Db13(): Db {
    Db12().(reviews := Db12().reviews["r" := ACCEPTED])
  }

  function Db14(): Db {
    Db13().(plans := Db13().plans["h" := PlanAt(HandlingProposed, 1)])
  }

  function Db15(): Db {
    Db14().(plans := Db14().plans["h" := PlanAt(HandlingAccepted, 2)])
  }

  function Db16(): Db {
    Db15().(plans := Db15().plans["h" := PlanAt(HandlingImplementing, 3)])
  }

  function Db17(): Db {
    Db16().(plans := Db16().plans["h" := PlanAt(HandlingCompleted, 4)])
  }

  function Db18(): Db {
    Db17().(items := Db17().items["s" := StatusInProgress])
  }

  function Db19(): Db {
    Db18().(conversions := Db18().conversions["o" := OUTCOME])
  }

  function Db20(): Db {
    Db19().(campaigns := Db19().campaigns["c" := CampaignAt(CampaignClosed)])
  }

  function Db21(): Db {
    Db20().(advisors := Db20().advisors["aa" := SECOND_ADVISOR])
  }

  /** All looks at one and the same database, at time 0. */
  function AllOf(db: Db): Samples {
    seq(SLOTS, _ => World(db, 0))
  }

  /** A commit decided on `seen` leads from `met` to `next`. */
  ghost predicate Leads(q: Request, seen: Db, met: Db, next: Db) {
    Decide(q, AllOf(seen)).Commit? && Apply(met, Decide(q, AllOf(seen)).w) == Ok(next)
  }

  /******* The history *******/

  function DbAt(k: nat): Db {
    if k == 0 then Db0()
    else if k == 1 then Db1()
    else if k == 2 then Db2()
    else if k == 3 then Db3()
    else if k == 4 then Db4()
    else if k == 5 then Db5()
    else if k == 6 then Db6()
    else if k == 7 then Db7()
    else if k == 8 then Db8()
    else if k == 9 then Db9()
    else if k == 10 then Db10()
    else if k == 11 then Db11()
    else if k == 12 then Db12()
    else if k == 13 then Db13()
    else if k == 14 then Db14()
    else if k == 15 then Db15()
    else if k == 16 then Db16()
    else if k == 17 then Db17()
    else if k == 18 then Db18()
    else if k == 19 then Db19()
    else if k == 20 then Db20()
    else Db21()
  }

  function Call(q: Request, j: nat): Event {
    Committed(0, q, seq(SLOTS, _ => j))
  }

  /** What happens, and for a commit the position of the world it was decided on. */
  function EventAt(k: nat): Event {
    if k == 0 then Call(Request.CreateCampaign("c", "KM", "t", "", 0, 10, "u"), 0)
    else if k == 1 then Call(Request.AddCollectionPoint("p", "c", "d", "n", "", "", 2), 1)
    else if k == 2 then Call(Request.ActivateCollectionPoint("p"), 2)
    else if k == 3 then ItemSaved("s", StatusAdjudicated)
    else if k == 4 then Call(Request.EnrollAdvisor("a", "c", "x", "x", ["e"], [], 2), 4)
    else if k == 5 then Call(Request.TransitionCampaign("c", CampaignOpen), 5)
    else if k == 6 then Call(Request.AddCollectionPoint("pp", "c", "dd", "n", "", "", 2), 5)
    else if k == 7 then Call(Request.TransitionCampaign("c", CampaignReview), 7)
    else if k == 8 then Call(Request.IntakeSuggestion("i", "s", "c", "p", "k", Online, 0, 10), 7)
    else if k == 9 then Call(Request.ActivateCollectionPoint("pp"), 7)
    else if k == 10 then ItemSaved("s", StatusCompleted)
    else if k == 11 then Call(Request.AssignReview("r", "s", "a", "k"), 10)
    else if k == 12 then Call(Request.DecideReview("r", ReviewAccepted, "n"), 12)
    else if k == 13 then Call(Request.CreateHandlingPlan("h", "s", "r", "d", "m", "k", 9), 13)
    else if k == 14 then Call(Request.TransitionHandlingPlan("h", HandlingAccepted), 14)
    else if k == 15 then Call(Request.TransitionHandlingPlan("h", HandlingImplementing), 15)
    else if k == 16 then Call(Request.TransitionHandlingPlan("h", HandlingCompleted), 16)
    else if k == 17 then ItemSaved("s", StatusInProgress)
    else if k == 18 then Call(Request.ProposeConversion("o", "s", "h", "b", "e"), 17)
    else if k == 19 then Call(Request.TransitionCampaign("c", CampaignClosed), 19)
    else Call(Request.EnrollAdvisor("aa", "c", "xx", "x", ["e"], [], 2), 19)
  }

  function Story(): Run {
    Run(seq(22, k requires 0 <= k < 22 => World(DbAt(k), 0)), seq(21, k requires 0 <= k < 21 => EventAt(k)))
  }

  ghost predicate Follows(k: nat)
    requires k < 21
  {
    Next(Story().worlds, k, EventAt(k))
  }

  lemma CommitNext(k: nat, q: Request, j: nat)
    requires j <= k < 21 && EventAt(k) == Call(q, j) && Leads(q, DbAt(j), DbAt(k), DbAt(k + 1))
    ensures Follows(k)
  {
    hide Decide, Apply, DbAt, EventAt;
    assert Sample(Story().worlds, seq(SLOTS, _ => j)) == AllOf(DbAt(j));
  }

  lemma SaveNext(k: nat, id: Id, status: ItemStatus)
    requires k < 21 && EventAt(k) == ItemSaved(id, status)
    requires DbAt(k + 1) == DbAt(k).(items := DbAt(k).items[id := status])
    ensures Follows(k)
  {
    hide DbAt, EventAt;
  }

  /******* What each operation of the history needs to find *******/

  lemma CreatesCampaign(db: Db, next: Db)
    requires db.campaigns == map[] && next == db.(campaigns := db.campaigns["c" := CAMPAIGN])
    ensures Leads(Request.CreateCampaign("c", "KM", "t", "", 0, 10, "u"), db, db, next)
  {
    assert Decide(Request.CreateCampaign("c", "KM", "t", "", 0, 10, "u"), AllOf(db))
           == Commit(InsertCampaign(CAMPAIGN));
  }

  lemma AddsPoint(seen: Db, met: Db, next: Db, p: CollectionPoint)
    requires p == POINT || p == SECOND_POINT
    requires "c" in seen.campaigns && seen.campaigns["c"].status == CampaignDraft && "c" in met.campaigns
    requires p.id !in met.points && forall i :: i in met.points ==> met.points[i].district != p.district
    requires next == met.(points := met.points[p.id := p])
    ensures Leads(Request.AddCollectionPoint(p.id, "c", p.district, "n", "", "", 2), seen, met, next)
  {
    assert Decide(Request.AddCollectionPoint(p.id, "c", p.district, "n", "", "", 2), AllOf(seen))
           == Commit(InsertPoint(p));
  }

  lemma ActivatesPoint(seen: Db, met: Db, next: Db, p: CollectionPoint)
    requires p == POINT || p == SECOND_POINT
    requires p.id in seen.points && seen.points[p.id] == p && p.id in met.points && met.points[p.id] == p
    requires "c" in seen.campaigns && seen.campaigns["c"].status in {CampaignDraft, CampaignOpen}
    requires forall i :: i in met.points && i != p.id ==> met.points[i].district != p.district
    requires next == met.(points := met.points[p.id := Activated(p)])
    ensures Leads(Request.ActivateCollectionPoint(p.id), seen, met, next)
  {
    assert Decide(Request.ActivateCollectionPoint(p.id), AllOf(seen)) == Commit(UpdatePoint(Activated(p), 1));
  }

  lemma Enrolls(seen: Db, met: Db, next: Db, a: Advisor)
    requires a == ADVISOR || a == SECOND_ADVISOR
    requires "c" in seen.campaigns && seen.campaigns["c"].status != CampaignClosed && "c" in met.campaigns
    requires a.id !in met.advisors && forall i :: i in met.advisors ==> met.advisors[i].userId != a.userId
    requires next == met.(advisors := met.advisors[a.id := a])
    ensures Leads(Request.EnrollAdvisor(a.id, "c", a.userId, "x", ["e"], [], 2), seen, met, next)
  {
    assert Decide(Request.EnrollAdvisor(a.id, "c", a.userId, "x", ["e"], [], 2), AllOf(seen))
           == Commit(InsertAdvisor(a));
  }

  lemma MovesCampaign(db: Db, next: Db, from: CampaignStatus, to: CampaignStatus)
    requires Rank(to) == Rank(from) + 1 && "c" in db.campaigns && db.campaigns["c"] == CampaignAt(from)
    requires "p" in db.points && db.points["p"] == Activated(POINT)
    requires next == db.(campaigns := db.campaigns["c" := CampaignAt(to)])
    ensures Leads(Request.TransitionCampaign("c", to), db, db, next)
  {
    assert HasActivePoint(db, "c");
    assert Decide(Request.TransitionCampaign("c", to), AllOf(db))
           == Commit(UpdateCampaign(CampaignAt(to), 1 + Rank(from)));
  }

  lemma IntakeDecided(db: Db)
    requires db.intakes == map[] && "s" in db.items && "c" in db.campaigns && "p" in db.points
    requires db.campaigns["c"] == CampaignAt(CampaignOpen) && db.points["p"] == Activated(POINT)
    ensures Decide(Request.IntakeSuggestion("i", "s", "c", "p", "k", Online, 0, 10), AllOf(db))
            == Commit(InsertIntake(INTAKE))
  {
    assert IntakesBetween(db, "p", 0, 10) == {};
  }

  lemma IntakeStored(db: Db, next: Db)
    requires db.intakes == map[] && "s" in db.items && "c" in db.campaigns && "p" in db.points
    requires db.points["p"] == Activated(POINT) && next == db.(intakes := db.intakes["i" := INTAKE])
    ensures Apply(db, InsertIntake(INTAKE)) == Ok(next)
  {
    assert IntakesOn(db, "p", 0) == {};
  }

  lemma AssignmentDecided(db: Db)
    requires db.reviews == map[] && "s" in db.items && "a" in db.advisors && "c" in db.campaigns
    requires !db.items["s"].IsTerminal() && db.advisors["a"] == ADVISOR
             && db.campaigns["c"] == CampaignAt(CampaignReview)
    ensures Decide(Request.AssignReview("r", "s", "a", "k"), AllOf(db)) == Commit(InsertReview(REVIEW))
  {
    assert PendingReviews(db, "a") == {};
  }

  lemma AssignmentStored(db: Db, next: Db)
    requires db.reviews == map[] && "s" in db.items && "a" in db.advisors && db.advisors["a"] == ADVISOR
    requires next == db.(reviews := db.reviews["r" := REVIEW])
    ensures Apply(db, InsertReview(REVIEW)) == Ok(next)
  {
    assert PendingReviews(db, "a") == {};
  }

  lemma AcceptsReview(db: Db, next: Db)
    requires "r" in db.reviews && db.reviews["r"] == REVIEW && next == db.(reviews := db.reviews["r" := ACCEPTED])
    ensures Leads(Request.DecideReview("r", ReviewAccepted, "n"), db, db, next)
  {
    assert Decide(Request.DecideReview("r", ReviewAccepted, "n"), AllOf(db)) == Commit(UpdateReview(ACCEPTED, 1));
  }

  lemma CreatesPlan(db: Db, next: Db)
    requires db.plans == map[] && "s" in db.items && "r" in db.reviews && db.reviews["r"] == ACCEPTED
    requires next == db.(plans := db.plans["h" := PlanAt(HandlingProposed, 1)])
    ensures Leads(Request.CreateHandlingPlan("h", "s", "r", "d", "m", "k", 9), db, db, next)
  {
    assert Decide(Request.CreateHandlingPlan("h", "s", "r", "d", "m", "k", 9), AllOf(db))
        == Commit(InsertPlan(PlanAt(HandlingProposed, 1)));
  }

  lemma MovesPlan(db: Db, next: Db, from: HandlingStatus, to: HandlingStatus, version: int)
    requires "h" in db.plans && db.plans["h"] == PlanAt(from, version) && db.plans["h"].Transition(to).Ok?
    requires next == db.(plans := db.plans["h" := PlanAt(to, version + 1)])
    ensures Leads(Request.TransitionHandlingPlan("h", to), db, db, next)
  {
    assert Decide(Request.TransitionHandlingPlan("h", to), AllOf(db))
           == Commit(UpdatePlan(PlanAt(to, version + 1), version));
  }

  lemma OutcomeDecided(db: Db)
    requires db.conversions == map[] && "s" in db.items && db.items["s"] == StatusCompleted
    requires db.plans.Keys == {"h"} && db.plans["h"] == PlanAt(HandlingCompleted, 4)
    ensures Decide(Request.ProposeConversion("o", "s", "h", "b", "e"), AllOf(db)) == Commit(InsertConversion(OUTCOME))
  {
  }

  lemma OutcomeStored(db: Db, next: Db)
    requires db.conversions == map[] && "s" in db.items && "h" in db.plans
    requires next == db.(conversions := db.conversions["o" := OUTCOME])
    ensures Apply(db, InsertConversion(OUTCOME)) == Ok(next)
  {
  }

  lemma CollectionSteps()
    ensures Leads(Request.CreateCampaign("c", "KM", "t", "", 0, 10, "u"), Db0(), Db0(), Db1())
    ensures Leads(Request.AddCollectionPoint("p", "c", "d", "n", "", "", 2), Db1(), Db1(), Db2())
    ensures Leads(Request.ActivateCollectionPoint("p"), Db2(), Db2(), Db3())
    ensures Leads(Request.EnrollAdvisor("a", "c", "x", "x", ["e"], [], 2), Db4(), Db4(), Db5())
    ensures Leads(Request.TransitionCampaign("c", CampaignOpen), Db5(), Db5(), Db6())
  {
    hide Leads;
    CreatesCampaign(Db0(), Db1());
    AddsPoint(Db1(), Db1(), Db2(), POINT);
    ActivatesPoint(Db2(), Db2(), Db3(), POINT);
    Enrolls(Db4(), Db4(), Db5(), ADVISOR);
    MovesCampaign(Db5(), Db6(), CampaignDraft, CampaignOpen);
  }

  lemma LateSteps()
    ensures Leads(Request.AddCollectionPoint("pp", "c", "dd", "n", "", "", 2), Db5(), Db6(), Db7())
    ensures Leads(Request.TransitionCampaign("c", CampaignReview), Db7(), Db7(), Db8())
    ensures Leads(Request.ActivateCollectionPoint("pp"), Db7(), Db9(), Db10())
  {
    hide Leads;
    AddsPoint(Db5(), Db6(), Db7(), SECOND_POINT);
    MovesCampaign(Db7(), Db8(), CampaignOpen, CampaignReview);
    ActivatesPoint(Db7(), Db9(), Db10(), SECOND_POINT);
  }

  lemma TakesIntake()
    ensures Leads(Request.IntakeSuggestion("i", "s", "c", "p", "k", Online, 0, 10), Db7(), Db8(), Db9())
  {
    hide Decide, Apply;
    IntakeDecided(Db7());
    IntakeStored(Db8(), Db9());
  }

  lemma AssignsReview()
    ensures Leads(Request.AssignReview("r", "s", "a", "k"), Db10(), Db11(), Db12())
  {
    hide Decide, Apply;
    AssignmentDecided(Db10());
    AssignmentStored(Db11(), Db12());
  }

  lemma HandlingSteps()
    ensures Leads(Request.DecideReview("r", ReviewAccepted, "n"), Db12(), Db12(), Db13())
    ensures Leads(Request.CreateHandlingPlan("h", "s", "r", "d", "m", "k", 9), Db13(), Db13(), Db14())
    ensures Leads(Request.TransitionHandlingPlan("h", HandlingAccepted), Db14(), Db14(), Db15())
    ensures Leads(Request.TransitionHandlingPlan("h", HandlingImplementing), Db15(), Db15(), Db16())
    ensures Leads(Request.TransitionHandlingPlan("h", HandlingCompleted), Db16(), Db16(), Db17())
  {
    hide Leads;
    AcceptsReview(Db12(), Db13());
    CreatesPlan(Db13(), Db14());
    MovesPlan(Db14(), Db15(), HandlingProposed, HandlingAccepted, 1);
    MovesPlan(Db15(), Db16(), HandlingAccepted, HandlingImplementing, 2);
    MovesPlan(Db16(), Db17(), HandlingImplementing, HandlingCompleted, 3);
  }

  lemma ProposesConversion()
    ensures Leads(Request.ProposeConversion("o", "s", "h", "b", "e"), Db17(), Db18(), Db19())
  {
    hide Decide, Apply;
    OutcomeDecided(Db17());
    OutcomeStored(Db18(), Db19());
  }

  lemma ClosingSteps()
    ensures Leads(Request.TransitionCampaign("c", CampaignClosed), Db19(), Db19(), Db20())
    ensures Leads(Request.EnrollAdvisor("aa", "c", "xx", "x", ["e"], [], 2), Db19(), Db20(), Db21())
  {
    hide Leads;
    MovesCampaign(Db19(), Db20(), CampaignReview, CampaignClosed);
    Enrolls(Db19(), Db20(), Db21(), SECOND_ADVISOR);
  }

  lemma PointFollows()
    ensures Follows(0) && Follows(1) && Follows(2)
  {
    hide Leads, Follows, Db0, Db1, Db2, Db3;
    CollectionSteps();
    CommitNext(0, Request.CreateCampaign("c", "KM", "t", "", 0, 10, "u"), 0);
    CommitNext(1, Request.AddCollectionPoint("p", "c", "d", "n", "", "", 2), 1);
    CommitNext(2, Request.ActivateCollectionPoint("p"), 2);
  }

  lemma CampaignFollows()
    ensures Follows(4) && Follows(5) && Follows(6)
  {
    hide Leads, Follows, Db4, Db5, Db6, Db7;
    CollectionSteps();
    LateSteps();
    CommitNext(4, Request.EnrollAdvisor("a", "c", "x", "x", ["e"], [], 2), 4);
    CommitNext(5, Request.TransitionCampaign("c", CampaignOpen), 5);
    CommitNext(6, Request.AddCollectionPoint("pp", "c", "dd", "n", "", "", 2), 5);
  }

  lemma ReviewFollows()
    ensures Follows(7) && Follows(8) && Follows(9) && Follows(11)
  {
    hide Leads, Follows, Db7, Db8, Db9, Db10, Db11, Db12;
    LateSteps();
    TakesIntake();
    AssignsReview();
    CommitNext(7, Request.TransitionCampaign("c", CampaignReview), 7);
    CommitNext(8, Request.IntakeSuggestion("i", "s", "c", "p", "k", Online, 0, 10), 7);
    CommitNext(9, Request.ActivateCollectionPoint("pp"), 7);
    CommitNext(11, Request.AssignReview("r", "s", "a", "k"), 10);
  }

  lemma HandlingFollows()
    ensures Follows(12) && Follows(13) && Follows(14) && Follows(15) && Follows(16)
  {
    hide Leads, Follows, Db12, Db13, Db14, Db15, Db16, Db17;
    HandlingSteps();
    CommitNext(12, Request.DecideReview("r", ReviewAccepted, "n"), 12);
    CommitNext(13, Request.CreateHandlingPlan("h", "s", "r", "d", "m", "k", 9), 13);
    CommitNext(14, Request.TransitionHandlingPlan("h", HandlingAccepted), 14);
    CommitNext(15, Request.TransitionHandlingPlan("h", HandlingImplementing), 15);
    CommitNext(16, Request.TransitionHandlingPlan("h", HandlingCompleted), 16);
  }

  lemma ConversionFollows()
    ensures Follows(18) && Follows(19) && Follows(20)
  {
    hide Leads, Follows, Db17, Db18, Db19, Db20, Db21;
    ProposesConversion();
    ClosingSteps();
    CommitNext(18, Request.ProposeConversion("o", "s", "h", "b", "e"), 17);
    CommitNext(19, Request.TransitionCampaign("c", CampaignClosed), 19);
    CommitNext(20, Request.EnrollAdvisor("aa", "c", "xx", "x", ["e"], [], 2), 19);
  }

  lemma SavesFollow()
    ensures Follows(3) && Follows(10) && Follows(17)
  {
    hide Follows;
    SaveNext(3, "s", StatusAdjudicated);
    SaveNext(10, "s", StatusCompleted);
    SaveNext(17, "s", StatusInProgress);
  }

  lemma StoryIsValid()
    ensures ValidRun(Story())
  {
    hide Next, EventAt, DbAt;
    FirstWorld();
    SavesFollow();
    PointFollows();
    CampaignFollows();
    ReviewFollows();
    HandlingFollows();
    ConversionFollows();
    assert forall k: nat :: k < 21 ==> Follows(k);
    forall k | 0 <= k < 21
      ensures Next(Story().worlds, k, Story().events[k])
    {
      assert Follows(k) && Story().events[k] == EventAt(k);
    }
  }

  lemma FirstWorld()
    ensures Story().worlds[0].db == EMPTY_DB
  {
  }

  /** Event k commits although the check its commit does not protect has stopped holding. */
  ghost predicate CommitsUnchecked(run: Run, k: nat)
    requires ValidRun(run)
  {
    k < |run.events| && run.events[k].Committed? && !GuardHeld(run, k)
  }

  lemma Unchecked(k: nat, q: Request, j: nat)
    requires k < 21 && EventAt(k) == Call(q, j) && ValidRun(Story()) && !StaleGuard(q, DbAt(k))
    ensures CommitsUnchecked(Story(), k) && Story().events[k].request == q
  {
    hide EventAt, DbAt, StaleGuard, ValidRun;
  }

  lemma PointUnchecked()
    requires ValidRun(Story())
    ensures CommitsUnchecked(Story(), 6) && Story().events[6].request.AddCollectionPoint?
  {
    hide ValidRun, CommitsUnchecked;
    var q := Request.AddCollectionPoint("pp", "c", "dd", "n", "", "", 2);
    assert Db6().campaigns["c"].status == CampaignOpen;
    Unchecked(6, q, 5);
  }

  lemma IntakeUnchecked()
    requires ValidRun(Story())
    ensures CommitsUnchecked(Story(), 8) && Story().events[8].request.IntakeSuggestion?
  {
    hide ValidRun, CommitsUnchecked;
    var q := Request.IntakeSuggestion("i", "s", "c", "p", "k", Online, 0, 10);
    assert Db8().campaigns["c"].status == CampaignReview;
    Unchecked(8, q, 7);
  }

  lemma ActivationUnchecked()
    requires ValidRun(Story())
    ensures CommitsUnchecked(Story(), 9) && Story().events[9].request.ActivateCollectionPoint?
  {
    hide ValidRun, CommitsUnchecked;
    var q := Request.ActivateCollectionPoint("pp");
    assert Db9().points["pp"].campaignId == "c" && Db9().campaigns["c"].status == CampaignReview;
    Unchecked(9, q, 7);
  }

  lemma AssignmentUnchecked()
    requires ValidRun(Story())
    ensures CommitsUnchecked(Story(), 11) && Story().events[11].request.AssignReview?
  {
    hide ValidRun, CommitsUnchecked;
    var q := Request.AssignReview("r", "s", "a", "k");
    assert Db11().items["s"] == StatusCompleted;
    Unchecked(11, q, 10);
  }

  lemma ProposalUnchecked()
    requires ValidRun(Story())
    ensures CommitsUnchecked(Story(), 18) && Story().events[18].request.ProposeConversion?
  {
    hide ValidRun, CommitsUnchecked;
    var q := Request.ProposeConversion("o", "s", "h", "b", "e");
    assert Db18().items["s"] == StatusInProgress;
    Unchecked(18, q, 17);
  }

  lemma EnrolmentUnchecked()
    requires ValidRun(Story())
    ensures CommitsUnchecked(Story(), 20) && Story().events[20].request.EnrollAdvisor?
  {
    hide ValidRun, CommitsUnchecked;
    var q := Request.EnrollAdvisor("aa", "c", "xx", "x", ["e"], [], 2);
    assert Db20().campaigns["c"].status == CampaignClosed;
    Unchecked(20, q, 19);
  }

  /** All six unprotected checks fail in one history: the point is added to an open campaign, the suggestion
      taken in and the second point activated under a campaign in review, the review assigned for a completed
      suggestion, the conversion proposed for one that is in progress again, and the advisor enrolled in a
      closed campaign. */
  lemma UnprotectedChecksFail() returns (run: Run)
    ensures ValidRun(run)
    ensures exists k: nat :: CommitsUnchecked(run, k) && run.events[k].request.AddCollectionPoint?
    ensures exists k: nat :: CommitsUnchecked(run, k) && run.events[k].request.IntakeSuggestion?
    ensures exists k: nat :: CommitsUnchecked(run, k) && run.events[k].request.ActivateCollectionPoint?
    ensures exists k: nat :: CommitsUnchecked(run, k) && run.events[k].request.AssignReview?
    ensures exists k: nat :: CommitsUnchecked(run, k) && run.events[k].request.ProposeConversion?
    ensures exists k: nat :: CommitsUnchecked(run, k) && run.events[k].request.EnrollAdvisor?
    ensures ExecuteAll(Operations(run, |run.events|)) == None
  {
    hide Story, ValidRun, CommitsUnchecked, Operations, ExecuteAll;
    run := Story();
    StoryIsValid();
    PointUnchecked();
    IntakeUnchecked();
    ActivationUnchecked();
    AssignmentUnchecked();
    ProposalUnchecked();
    EnrolmentUnchecked();
    NotInOrder(run, 6);
  }

  lemma NotInOrder(run: Run, k: nat)
    requires ValidRun(run) && CommitsUnchecked(run, k)
    ensures ExecuteAll(Operations(run, |run.events|)) == None
  {
    hide GuardHeld, Operations, ExecuteAll, Next;
    assert !GuardHeld(run, k);
    Serialisable(run, |run.events|);
  }

  /** An intake decided while its campaign was open commits after the campaign has moved on to review. */
  lemma StaleIntakeCommits() returns (run: Run, k: nat)
    ensures ValidRun(run) && CommitsUnchecked(run, k)
    ensures run.events[k].request.IntakeSuggestion?
    ensures var campaign := run.events[k].request.campaignId; var db := run.worlds[k].db;
            campaign in db.campaigns && db.campaigns[campaign].status == CampaignReview
  {
    hide ValidRun, Next, CommitsUnchecked;
    run, k := Story(), 8;
    StoryIsValid();
    IntakeUnchecked();
    assert run.worlds[8].db == Db8() && Db8().campaigns["c"] == CampaignAt(CampaignReview);
  }
}
