/** City Without Walls (CityWithoutWalls.py): the rules of the five-role game over
    immutable snapshots of its state. The imperative engine in module
    CityWithoutWalls builds each successor state in place and is proved to produce
    exactly the snapshots computed here; the properties of the game are proved about these. */
module CityRules {
  import opened Arith

  const NEIGHBORHOODS := 0
  const BUSINESS := 1
  const MEDICAL := 2
  const SHELTERS := 3
  const UNIVERSITY := 4
  const OBSERVER := 5

  const NAMES: seq<string> := [
    "Neighborhoods Coalition", "Business District Association",
    "Medical Quarter Consortium", "Shelters & Services Network",
    "University Consortium", "Observer"]

  const SEASONS: seq<string> := ["Winter", "Spring", "Summer", "Fall"]
  const WINTER := 0
  const SUMMER := 2

  /** An index into SEASONS; the only update, `(i + 1) % 4`, stays in range. */
  type SeasonIndex = i: int | 0 <= i < 4

  /** The five roles that take turns; the Observer never moves. */
  predicate Acting(k: int)
  {
    NEIGHBORHOODS <= k <= UNIVERSITY
  }

  // ---------------------------------------------------------------------------
  // State

  /** Who moves, which round (`turn`) and season it is, and whether the current
      round has seen a constructive action yet. */
  datatype Clock = Clock(
    whoseTurn: int, currentRoleNum: int, currentRole: string,
    turn: int, seasonIndex: SeasonIndex, lastPositiveAction: bool)

  /** The homeless population and its parts; the parts are not kept summing to the total. */
  datatype People = People(
    homelessPopulation: int, unsheltered: int, sheltered: int, transitional: int,
    atRiskPopulation: int)

  /** Citywide system health. */
  datatype Civic = Civic(
    publicSupport: int, governmentBudget: int, trustIndex: int, stigmaIndex: int,
    serviceCoordination: int)

  datatype Neighborhoods = Neighborhoods(
    budget: int, influence: int, propertyValueIndex: int, safetyPerception: int, complaintRate: int)

  datatype Business = Business(
    budget: int, influence: int, customerTraffic: int, cleanlinessIndex: int,
    revenueImpact: int, reputation: int)

  datatype Medical = Medical(
    budget: int, influence: int, clinicCapacity: int, patientVolume: int,
    healthOutcomeIndex: int, staffBurnout: int)

  datatype Shelters = Shelters(
    budget: int, influence: int, bedCapacity: int, occupancyRate: int,
    volunteerCount: int, waitlist: int, housingPlacements: int)

  datatype University = University(
    budget: int, influence: int, researchFunding: int, reputationScore: int,
    communityEngagement: int, publications: int, researchProjects: seq<string>)

  /** The ethical tracking counters and the one-time pilot flag. */
  datatype Tally = Tally(homelessDeaths: int, humanCostIndex: int, sweepsConducted: int, pilotActive: bool)

  /** Which ending the goal check reached; `Unset` stands for the empty `win` message. */
  datatype Ending =
    | Unset
    | HumanitarianCrisis   // more than 50 deaths
    | PoliticalCollapse    // support below 25 after turn 6
    | ExemplarySuccess     // at most 8560 homeless with support above 55
    | Success              // at most 9095 homeless with support above 45
    | PartialSuccess       // at most 9630 homeless
    | MinimalProgress      // fewer than 10700 homeless
    | Failure              // no reduction

  datatype Outcome = NoWin | Win(ending: Ending, winner: int)

  /** One state of the game: every field of the game state, grouped as the game
      groups them (global metrics, each stakeholder's metrics, tracking). */
  datatype Snapshot = Snapshot(
    clock: Clock, people: People, civic: Civic,
    neigh: Neighborhoods, biz: Business, med: Medical, shelter: Shelters, uni: University,
    tally: Tally, win: Ending, winner: int)

  /** The state a new game starts from. */
  function Initial(): (v: Snapshot)
    ensures Inv(v) && Funded(v)
    ensures v.clock.whoseTurn == NEIGHBORHOODS && v.clock.turn == 1 && v.clock.seasonIndex == WINTER
    ensures FindAnyWin(v) == NoWin
  {
    Snapshot(
      Clock(NEIGHBORHOODS, NEIGHBORHOODS, NAMES[NEIGHBORHOODS], 1, 0, true),
      People(10700, 4500, 3800, 2400, 38000),
      Civic(50, 1200000, 42, 68, 35),
      Neighborhoods(750000, 65, 100, 45, 22),
      Business(900000, 70, 100, 52, 0, 50),
      Medical(600000, 55, 240, 190, 38, 30),
      Shelters(500000, 50, 3800, 100, 280, 420, 0),
      University(400000, 45, 120000, 75, 40, 0, []),
      Tally(0, 0, 0, false),
      Unset, -1)
  }

  predicate Percent(x: int)
  {
    0 <= x <= 100
  }

  /** What every reachable state satisfies, whatever the moves: an acting role to
      move with consistent role fields, a round number from 1, every clamped metric
      in its clamp range, no more patients than clinic capacity, and non-negative
      counters, complaint rate, volunteers and waitlist. */
  predicate Inv(v: Snapshot)
  {
    && Acting(v.clock.whoseTurn)
    && v.clock.currentRoleNum == v.clock.whoseTurn
    && v.clock.currentRole == NAMES[v.clock.whoseTurn]
    && v.clock.turn >= 1
    && Percent(v.civic.publicSupport) && Percent(v.civic.trustIndex)
    && Percent(v.civic.stigmaIndex) && Percent(v.civic.serviceCoordination)
    && 0 <= v.neigh.propertyValueIndex <= 150 && Percent(v.neigh.safetyPerception) && 0 <= v.neigh.complaintRate
    && 0 <= v.biz.customerTraffic <= 150 && Percent(v.biz.cleanlinessIndex) && Percent(v.biz.reputation)
    && Percent(v.med.healthOutcomeIndex) && Percent(v.med.staffBurnout)
    && v.med.patientVolume <= v.med.clinicCapacity
    && 0 <= v.shelter.volunteerCount && 0 <= v.shelter.waitlist
    && Percent(v.uni.reputationScore) && Percent(v.uni.communityEngagement)
    && 0 <= v.uni.publications
    && 0 <= v.tally.homelessDeaths && 0 <= v.tally.humanCostIndex && 0 <= v.tally.sweepsConducted
  }

  /** The role budgets and the research funding are not negative. Legal play keeps
      this; an operator applied without its precondition need not. */
  predicate Funded(v: Snapshot)
  {
    && 0 <= v.neigh.budget && 0 <= v.biz.budget && 0 <= v.med.budget
    && 0 <= v.shelter.budget && 0 <= v.uni.budget && 0 <= v.uni.researchFunding
  }

  /** The budget of an acting role. */
  function Budget(role: int, v: Snapshot): int
    requires Acting(role)
  {
    if role == NEIGHBORHOODS then v.neigh.budget
    else if role == BUSINESS then v.biz.budget
    else if role == MEDICAL then v.med.budget
    else if role == SHELTERS then v.shelter.budget
    else v.uni.budget
  }

  /** The influence of an acting role. */
  function Influence(role: int, v: Snapshot): int
    requires Acting(role)
  {
    if role == NEIGHBORHOODS then v.neigh.influence
    else if role == BUSINESS then v.biz.influence
    else if role == MEDICAL then v.med.influence
    else if role == SHELTERS then v.shelter.influence
    else v.uni.influence
  }

  // ---------------------------------------------------------------------------
  // Goal evaluator

  /** `find_any_win`: catastrophes first, then, after the last round, the outcome
      tier reached by the homeless population and public support. Success tiers
      report winner 1 and the partial tiers winner 0. */
  function FindAnyWin(v: Snapshot): (r: Outcome)
    // nothing is decided before turn 25 unless a catastrophe happened
    ensures r == NoWin <==>
      v.tally.homelessDeaths <= 50 && !(v.civic.publicSupport < 25 && v.clock.turn > 6) && v.clock.turn <= 24
    // deaths above 50 end the game as a crisis whatever else holds
    ensures v.tally.homelessDeaths > 50 ==> r == Win(HumanitarianCrisis, -1)
    ensures r.Win? ==> r.ending != Unset && -1 <= r.winner <= 1
    // a success needs the population at most 9095 and support above 45, and no catastrophe
    ensures (r.Win? && r.winner == 1) <==>
      && v.tally.homelessDeaths <= 50 && !(v.civic.publicSupport < 25 && v.clock.turn > 6) && v.clock.turn > 24
      && ((v.people.homelessPopulation <= 8560 && v.civic.publicSupport > 55)
          || (v.people.homelessPopulation <= 9095 && v.civic.publicSupport > 45))
    // any other reduction below the starting 10700 counts as partial
    ensures (r.Win? && r.winner == 0) <==>
      && v.tally.homelessDeaths <= 50 && !(v.civic.publicSupport < 25 && v.clock.turn > 6) && v.clock.turn > 24
      && !((v.people.homelessPopulation <= 8560 && v.civic.publicSupport > 55)
           || (v.people.homelessPopulation <= 9095 && v.civic.publicSupport > 45))
      && v.people.homelessPopulation < 10700
    // the ending reported: a crisis before a collapse, and at the end of the game the
    // highest tier the population and support reach
    ensures r == Win(HumanitarianCrisis, -1) <==> v.tally.homelessDeaths > 50
    ensures r == Win(PoliticalCollapse, -1) <==>
      v.tally.homelessDeaths <= 50 && v.civic.publicSupport < 25 && v.clock.turn > 6
    ensures r == Win(ExemplarySuccess, 1) <==>
      && v.tally.homelessDeaths <= 50 && !(v.civic.publicSupport < 25 && v.clock.turn > 6) && v.clock.turn > 24
      && v.people.homelessPopulation <= 8560 && v.civic.publicSupport > 55
    ensures r == Win(Success, 1) <==>
      && v.tally.homelessDeaths <= 50 && !(v.civic.publicSupport < 25 && v.clock.turn > 6) && v.clock.turn > 24
      && !(v.people.homelessPopulation <= 8560 && v.civic.publicSupport > 55)
      && v.people.homelessPopulation <= 9095 && v.civic.publicSupport > 45
    ensures r == Win(PartialSuccess, 0) <==>
      && v.tally.homelessDeaths <= 50 && !(v.civic.publicSupport < 25 && v.clock.turn > 6) && v.clock.turn > 24
      && !((v.people.homelessPopulation <= 8560 && v.civic.publicSupport > 55)
           || (v.people.homelessPopulation <= 9095 && v.civic.publicSupport > 45))
      && v.people.homelessPopulation <= 9630
    ensures r == Win(MinimalProgress, 0) <==>
      && v.tally.homelessDeaths <= 50 && !(v.civic.publicSupport < 25 && v.clock.turn > 6) && v.clock.turn > 24
      && 9630 < v.people.homelessPopulation < 10700
    ensures r == Win(Failure, -1) <==>
      && v.tally.homelessDeaths <= 50 && !(v.civic.publicSupport < 25 && v.clock.turn > 6) && v.clock.turn > 24
      && 10700 <= v.people.homelessPopulation
  {
    if v.tally.homelessDeaths > 50 then Win(HumanitarianCrisis, -1)
    else if v.civic.publicSupport < 25 && v.clock.turn > 6 then Win(PoliticalCollapse, -1)
    else if v.clock.turn > 24 then
      var h := v.people.homelessPopulation;
      if h <= 8560 && v.civic.publicSupport > 55 then Win(ExemplarySuccess, 1)
      else if h <= 9095 && v.civic.publicSupport > 45 then Win(Success, 1)
      else if h <= 9630 then Win(PartialSuccess, 0)
      else if h < 10700 then Win(MinimalProgress, 0)
      else Win(Failure, -1)
    else NoWin
  }

  /** At the end of the game, a smaller homeless population never earns a worse result. */
  lemma FewerHomelessNeverWorse(v: Snapshot, w: Snapshot)
    requires v.tally.homelessDeaths == w.tally.homelessDeaths && v.civic == w.civic && v.clock.turn == w.clock.turn
    requires v.people.homelessPopulation <= w.people.homelessPopulation
    requires FindAnyWin(v).Win? && FindAnyWin(w).Win?
    ensures FindAnyWin(v).winner >= FindAnyWin(w).winner
  {
  }

  /** `check_for_win`: records the goal check's result when there is one. */
  function CheckForWin(v: Snapshot): (r: Snapshot)
    ensures FindAnyWin(v).Win? ==> r.win == FindAnyWin(v).ending && r.winner == FindAnyWin(v).winner
    ensures FindAnyWin(v) == NoWin ==> r == v
    ensures r.(win := v.win, winner := v.winner) == v
    ensures v.win != Unset ==> r.win != Unset
  {
    var any := FindAnyWin(v);
    if any.Win? then v.(win := any.ending, winner := any.winner) else v
  }

  /** Checking for a win a second time changes nothing. */
  lemma {:induction false} CheckForWinIdempotent(v: Snapshot)
    ensures CheckForWin(CheckForWin(v)) == CheckForWin(v)
  {
    assert FindAnyWin(CheckForWin(v)) == FindAnyWin(v);
  }

  // ---------------------------------------------------------------------------
  // Turn scheduler

  /** `next_player`: Neighborhoods, Business, Medical, Shelters, University, then
      Neighborhoods again; any other number also hands the turn to Neighborhoods. */
  function NextPlayer(k: int): (r: int)
    ensures Acting(r) && r != OBSERVER
    ensures Acting(k) ==> r == (k + 1) % 5
  {
    if k == NEIGHBORHOODS then BUSINESS
    else if k == BUSINESS then MEDICAL
    else if k == MEDICAL then SHELTERS
    else if k == SHELTERS then UNIVERSITY
    else NEIGHBORHOODS
  }

  /** `apply_seasonal_effects`: winter kills 0.2% of the unsheltered once there are
      more than 3000 and adds a tenth of 15% of them to the waitlist, clamped to
      [0, 5000]; summer heat lowers a health index below 45 by 2. */
  function SeasonalEffects(v: Snapshot): Snapshot
  {
    if v.clock.seasonIndex == WINTER then
      var u := v.people.unsheltered;
      var deaths := if u > 3000 then Scale(u, 2, 1000) else 0;
      var demandIncrease := Scale(u, 15, 100);
      v.(tally := v.tally.(homelessDeaths := v.tally.homelessDeaths + deaths),
         shelter := v.shelter.(waitlist := Clamp(v.shelter.waitlist + demandIncrease / 10, 0, 5000)))
    else if v.clock.seasonIndex == SUMMER && v.med.healthOutcomeIndex < 45 then
      v.(med := v.med.(healthOutcomeIndex := Clamp(v.med.healthOutcomeIndex - 2, 0, 100)))
    else
      v
  }

  /** What the seasonal effects do and leave alone. */
  lemma SeasonalEffectsSpec(v: Snapshot, r: Snapshot)
    requires r == SeasonalEffects(v)
    // deaths only ever accumulate, and only in winter
    ensures v.tally.homelessDeaths <= r.tally.homelessDeaths
    ensures r.tally.homelessDeaths != v.tally.homelessDeaths ==>
      v.clock.seasonIndex == WINTER && v.people.unsheltered > 3000
    ensures v.clock.seasonIndex == WINTER ==> 0 <= r.shelter.waitlist <= 5000
    ensures v.clock.seasonIndex != WINTER ==> r.shelter == v.shelter && r.tally == v.tally
    ensures r.med.healthOutcomeIndex ==
      if v.clock.seasonIndex == SUMMER && v.med.healthOutcomeIndex < 45
      then Clamp(v.med.healthOutcomeIndex - 2, 0, 100) else v.med.healthOutcomeIndex
    // only deaths, the waitlist and the health index change
    ensures r == v.(tally := r.tally, shelter := r.shelter, med := r.med)
    ensures r.tally == v.tally.(homelessDeaths := r.tally.homelessDeaths)
    ensures r.shelter == v.shelter.(waitlist := r.shelter.waitlist)
    ensures r.med == v.med.(healthOutcomeIndex := r.med.healthOutcomeIndex)
  {
  }

  /** The individual-turn count `(turn - 1) * 5 + whose_turn + 1` on which volunteer
      attrition is keyed: every fourth individual turn. */
  function TurnCount(c: Clock): int
  {
    (c.turn - 1) * 5 + (c.whoseTurn + 1)
  }

  /** Support decays by one point, never below 0, after a round with no constructive action. */
  function DecaySupport(v: Snapshot): (r: Snapshot)
    ensures r == v.(civic := r.civic) && r.civic == v.civic.(publicSupport := r.civic.publicSupport)
  {
    if !v.clock.lastPositiveAction then v.(civic := v.civic.(publicSupport := Clamp(v.civic.publicSupport - 1, 0, 100)))
    else v
  }

  /** Every fourth individual turn, 5% of the volunteers leave (rounded toward zero). */
  function VolunteerAttrition(v: Snapshot): (r: Snapshot)
    ensures r == v.(shelter := r.shelter) && r.shelter == v.shelter.(volunteerCount := r.shelter.volunteerCount)
    ensures 0 <= v.shelter.volunteerCount ==> 0 <= r.shelter.volunteerCount <= v.shelter.volunteerCount
  {
    if TurnCount(v.clock) % 4 == 0 then
      ScaleShrinks(v.shelter.volunteerCount, 95, 100);
      v.(shelter := v.shelter.(volunteerCount := Scale(v.shelter.volunteerCount, 95, 100)))
    else v
  }

  /** Staff burnout rises by 8 while patient volume exceeds 90% of clinic capacity. */
  function StaffOverwork(v: Snapshot): (r: Snapshot)
    ensures r == v.(med := r.med) && r.med == v.med.(staffBurnout := r.med.staffBurnout)
  {
    if 10 * v.med.patientVolume > 9 * v.med.clinicCapacity then
      v.(med := v.med.(staffBurnout := Clamp(v.med.staffBurnout + 8, 0, 100)))
    else v
  }

  /** The turn passes to the next role; when it comes back to Neighborhoods a new
      round begins, and every third round a new season. */
  function PassTurn(v: Snapshot): (r: Snapshot)
    ensures r == v.(clock := r.clock)
  {
    var updated := NextPlayer(v.clock.whoseTurn);
    var e := v.(clock := v.clock.(whoseTurn := updated, currentRoleNum := updated, currentRole := NAMES[updated]));
    if updated == NEIGHBORHOODS then
      var f := e.(clock := e.clock.(turn := e.clock.turn + 1, lastPositiveAction := false));
      if f.clock.turn % 3 == 0 then f.(clock := f.clock.(seasonIndex := (f.clock.seasonIndex + 1) % 4)) else f
    else
      e
  }

  /** `update_turn`: support decay for a round without a constructive action,
      seasonal effects, volunteer attrition, staff burnout under load, then the
      next role, and on a new round the round number and every third round the season. */
  function UpdateTurn(v: Snapshot): Snapshot
  {
    PassTurn(StaffOverwork(VolunteerAttrition(SeasonalEffects(DecaySupport(v)))))
  }

  /** What `update_turn` promises. */
  lemma UpdateTurnSpec(v: Snapshot, r: Snapshot)
    requires r == UpdateTurn(v)
    // the mover is always an acting role, never the Observer, with consistent role fields
    ensures Acting(r.clock.whoseTurn) && r.clock.whoseTurn == NextPlayer(v.clock.whoseTurn)
    ensures r.clock.currentRoleNum == r.clock.whoseTurn && r.clock.currentRole == NAMES[r.clock.whoseTurn]
    // a round ends exactly when the turn passes back to Neighborhoods, and resets the action flag
    ensures r.clock.turn == if r.clock.whoseTurn == NEIGHBORHOODS then v.clock.turn + 1 else v.clock.turn
    ensures r.clock.lastPositiveAction == (v.clock.lastPositiveAction && r.clock.whoseTurn != NEIGHBORHOODS)
    // the season advances, modulo 4, only on a new round whose number is a multiple of 3
    ensures r.clock.seasonIndex ==
      if r.clock.whoseTurn == NEIGHBORHOODS && r.clock.turn % 3 == 0
      then (v.clock.seasonIndex + 1) % 4 else v.clock.seasonIndex
    // support decays by one point, never below 0, exactly when the round saw no constructive action
    ensures r.civic.publicSupport ==
      if v.clock.lastPositiveAction then v.civic.publicSupport else Clamp(v.civic.publicSupport - 1, 0, 100)
    // volunteers leave only on every fourth individual turn, and their count never grows
    ensures TurnCount(v.clock) % 4 != 0 ==> r.shelter.volunteerCount == v.shelter.volunteerCount
    ensures 0 <= v.shelter.volunteerCount ==> 0 <= r.shelter.volunteerCount <= v.shelter.volunteerCount
    // burnout rises only while patient volume exceeds 90% of clinic capacity
    ensures r.med.staffBurnout ==
      if 10 * v.med.patientVolume > 9 * v.med.clinicCapacity then Clamp(v.med.staffBurnout + 8, 0, 100)
      else v.med.staffBurnout
    ensures v.tally.homelessDeaths <= r.tally.homelessDeaths
    // the stakeholders' budgets and the populations are untouched
    ensures r.people == v.people && r.neigh == v.neigh && r.biz == v.biz && r.uni == v.uni
    ensures r.civic == v.civic.(publicSupport := r.civic.publicSupport)
    ensures r.med == v.med.(healthOutcomeIndex := r.med.healthOutcomeIndex, staffBurnout := r.med.staffBurnout)
    ensures r.shelter == v.shelter.(waitlist := r.shelter.waitlist, volunteerCount := r.shelter.volunteerCount)
    ensures r.tally == v.tally.(homelessDeaths := r.tally.homelessDeaths)
    ensures r.win == v.win && r.winner == v.winner
  {
    SeasonalEffectsSpec(DecaySupport(v), SeasonalEffects(DecaySupport(v)));
  }

  // ---------------------------------------------------------------------------
  // Operator catalog

  /** The twenty-two catalog entries, named after their preconditions. */
  datatype Op =
    | MediaCampaign | PrivateSecurity | OutreachProgram | CommunityForums
    | CitySweeps | JobReadiness | StreetAmbassadors | AffordableHousing
    | HealthClinic | MentalHealth | MedicalRespite | MobileOutreach
    | VolunteerDrive | ExpandShelter | HousingNavigation | Psh | ResearchPartner
    | StudentOutreach | PolicyResearch | PilotProgram | AcademicForums | DataDashboard

  const NEIGHBORHOODS_OPS: seq<Op> := [MediaCampaign, PrivateSecurity, OutreachProgram, CommunityForums]
  const BUSINESS_OPS: seq<Op> := [CitySweeps, JobReadiness, StreetAmbassadors, AffordableHousing]
  const MEDICAL_OPS: seq<Op> := [HealthClinic, MentalHealth, MedicalRespite, MobileOutreach]
  const SHELTERS_OPS: seq<Op> := [VolunteerDrive, ExpandShelter, HousingNavigation, Psh, ResearchPartner]
  const UNIVERSITY_OPS: seq<Op> := [StudentOutreach, PolicyResearch, PilotProgram, AcademicForums, DataDashboard]
  const OPERATORS: seq<Op> := NEIGHBORHOODS_OPS + BUSINESS_OPS + MEDICAL_OPS + SHELTERS_OPS + UNIVERSITY_OPS

  /** The role whose list an operator belongs to. */
  function Owner(op: Op): (r: int)
    ensures Acting(r)
    ensures r == NEIGHBORHOODS <==> op in NEIGHBORHOODS_OPS
    ensures r == BUSINESS <==> op in BUSINESS_OPS
    ensures r == MEDICAL <==> op in MEDICAL_OPS
    ensures r == SHELTERS <==> op in SHELTERS_OPS
    ensures r == UNIVERSITY <==> op in UNIVERSITY_OPS
  {
    match op
    case MediaCampaign | PrivateSecurity | OutreachProgram | CommunityForums => NEIGHBORHOODS
    case CitySweeps | JobReadiness | StreetAmbassadors | AffordableHousing => BUSINESS
    case HealthClinic | MentalHealth | MedicalRespite | MobileOutreach => MEDICAL
    case VolunteerDrive | ExpandShelter | HousingNavigation | Psh | ResearchPartner => SHELTERS
    case _ => UNIVERSITY
  }

  /** The catalog lists every operator exactly once, each in its owner's list. */
  lemma OperatorsComplete(op: Op)
    ensures op in OPERATORS
    ensures |OPERATORS| == 22
    ensures forall i, j :: 0 <= i < j < |OPERATORS| ==> OPERATORS[i] != OPERATORS[j]
  {
  }

  /** Each role's list holds only operators that role owns. */
  lemma CatalogByOwner()
    ensures forall i :: 0 <= i < |NEIGHBORHOODS_OPS| ==> Owner(NEIGHBORHOODS_OPS[i]) == NEIGHBORHOODS
    ensures forall i :: 0 <= i < |BUSINESS_OPS| ==> Owner(BUSINESS_OPS[i]) == BUSINESS
    ensures forall i :: 0 <= i < |MEDICAL_OPS| ==> Owner(MEDICAL_OPS[i]) == MEDICAL
    ensures forall i :: 0 <= i < |SHELTERS_OPS| ==> Owner(SHELTERS_OPS[i]) == SHELTERS
    ensures forall i :: 0 <= i < |UNIVERSITY_OPS| ==> Owner(UNIVERSITY_OPS[i]) == UNIVERSITY
  {
  }

  /** The amount each operator takes from its owner's budget. */
  function Cost(op: Op): nat
  {
    match op
    case MediaCampaign => 100000
    case PrivateSecurity => 75000
    case OutreachProgram => 60000
    case CommunityForums => 15000
    case CitySweeps => 120000
    case JobReadiness => 180000
    case StreetAmbassadors => 90000
    case AffordableHousing => 350000
    case HealthClinic => 200000
    case MentalHealth => 280000
    case MedicalRespite => 160000
    case MobileOutreach => 95000
    case VolunteerDrive => 50000
    case ExpandShelter => 150000
    case HousingNavigation => 120000
    case Psh => 400000
    case ResearchPartner => 75000
    case StudentOutreach => 40000
    case PolicyResearch => 90000
    case PilotProgram => 150000
    case AcademicForums => 25000
    case DataDashboard => 60000
  }

  /** The amount each operator takes from its owner's influence, unclamped. */
  function InfluenceCost(op: Op): nat
  {
    match op
    case MediaCampaign => 10
    case PrivateSecurity => 15
    case OutreachProgram => 8
    case CommunityForums => 5
    case CitySweeps => 12
    case JobReadiness => 8
    case StreetAmbassadors => 6
    case AffordableHousing => 25
    case HealthClinic => 10
    case MentalHealth => 15
    case MedicalRespite => 15
    case MobileOutreach => 8
    case VolunteerDrive => 5
    case ExpandShelter => 10
    case HousingNavigation => 10
    case Psh => 30
    case ResearchPartner => 8
    case StudentOutreach => 5
    case PolicyResearch => 10
    case PilotProgram => 20
    case AcademicForums => 8
    case DataDashboard => 6
  }

  /** The precondition of each operator (the `can_*` functions): the owner's turn,
      a budget threshold, and the operator's own condition. */
  predicate Legal(op: Op, v: Snapshot)
  {
    var t := v.clock.turn;
    match op
    case MediaCampaign =>
      v.clock.whoseTurn == NEIGHBORHOODS && v.neigh.budget >= 100000 && v.civic.publicSupport < 70
    case PrivateSecurity =>
      v.clock.whoseTurn == NEIGHBORHOODS && v.neigh.budget >= 75000 && v.neigh.safetyPerception < 55
    case OutreachProgram =>
      v.clock.whoseTurn == NEIGHBORHOODS && v.neigh.budget >= 60000 && v.civic.publicSupport > 45
    case CommunityForums =>
      v.clock.whoseTurn == NEIGHBORHOODS && v.neigh.budget >= 15000 && v.neigh.complaintRate > 20
    case CitySweeps => v.clock.whoseTurn == BUSINESS && v.biz.budget >= 120000 && v.biz.cleanlinessIndex < 60
    case JobReadiness => v.clock.whoseTurn == BUSINESS && v.biz.budget >= 180000 && t > 3
    case StreetAmbassadors => v.clock.whoseTurn == BUSINESS && v.biz.budget >= 90000 && v.biz.reputation > 40
    case AffordableHousing => v.clock.whoseTurn == BUSINESS && v.biz.budget >= 350000 && t > 8
    case HealthClinic => v.clock.whoseTurn == MEDICAL && v.med.budget >= 200000 && t > 2
    case MentalHealth => v.clock.whoseTurn == MEDICAL && v.med.budget >= 280000 && t > 4
    case MedicalRespite => v.clock.whoseTurn == MEDICAL && v.med.budget >= 160000
    case MobileOutreach => v.clock.whoseTurn == MEDICAL && v.med.budget >= 95000 && t > 2
    case VolunteerDrive =>
      v.clock.whoseTurn == SHELTERS && v.shelter.budget >= 50000 && v.civic.publicSupport > 45
    case ExpandShelter => v.clock.whoseTurn == SHELTERS && v.shelter.budget >= 150000
    case HousingNavigation => v.clock.whoseTurn == SHELTERS && v.shelter.budget >= 120000 && t > 3
    case Psh =>
      v.clock.whoseTurn == SHELTERS && v.shelter.budget >= 400000 && t > 10 && v.civic.serviceCoordination > 50
    case ResearchPartner => v.clock.whoseTurn == SHELTERS && v.shelter.budget >= 75000 && t > 5
    case StudentOutreach =>
      v.clock.whoseTurn == UNIVERSITY && v.uni.budget >= 40000 && t % 12 !in {0, 11, 12, 23, 24}
    case PolicyResearch => v.clock.whoseTurn == UNIVERSITY && v.uni.budget >= 90000 && t > 4
    case PilotProgram =>
      && v.clock.whoseTurn == UNIVERSITY && v.uni.budget >= 150000 && v.uni.researchFunding >= 150000
      && t > 6 && !v.tally.pilotActive
    case AcademicForums =>
      v.clock.whoseTurn == UNIVERSITY && v.uni.budget >= 25000 && v.uni.communityEngagement < 60
    case DataDashboard => v.clock.whoseTurn == UNIVERSITY && v.uni.budget >= 60000 && t > 8
  }

  /** Every precondition demands the owner's turn and a budget covering exactly the
      cost the operator deducts; the pilot's also demands that no pilot is active and
      research funding covering the 150000 it draws. */
  lemma LegalCoversCost(op: Op, v: Snapshot)
    requires Legal(op, v)
    ensures v.clock.whoseTurn == Owner(op) && Budget(Owner(op), v) >= Cost(op)
    ensures op == PilotProgram ==> !v.tally.pilotActive && v.uni.researchFunding >= 150000
  {
  }

  /** The operators of `ops` whose precondition holds in v, in catalog order. */
  function LegalAmong(ops: seq<Op>, v: Snapshot): (r: seq<Op>)
    ensures forall op :: op in r <==> op in ops && Legal(op, v)
  {
    if ops == [] then []
    else if Legal(ops[0], v) then [ops[0]] + LegalAmong(ops[1..], v)
    else LegalAmong(ops[1..], v)
  }

  /** The operators the catalog offers in state v, all of them the mover's. */
  function LegalOperators(v: Snapshot): (r: seq<Op>)
    ensures forall op :: op in r <==> Legal(op, v)
    ensures forall op :: op in r ==> Owner(op) == v.clock.whoseTurn
  {
    LegalAmong(OPERATORS, v)
  }

  /** There is no always-legal Pass: a University with less than 25000 left can be
      stuck with no operator at all, so a move is not always available. */
  lemma NoMoveAvailable()
    ensures var v := Initial().(clock := Initial().clock.(whoseTurn := UNIVERSITY, currentRoleNum := UNIVERSITY,
                                                           currentRole := NAMES[UNIVERSITY]),
                                uni := Initial().uni.(budget := 20000));
      Inv(v) && Funded(v) && LegalOperators(v) == []
  {
    var v := Initial().(clock := Initial().clock.(whoseTurn := UNIVERSITY, currentRoleNum := UNIVERSITY,
                                                  currentRole := NAMES[UNIVERSITY]),
                       uni := Initial().uni.(budget := 20000));
    var ops := LegalOperators(v);
    if ops != [] {
      LegalCoversCost(ops[0], v);
    }
  }

  // ---------------------------------------------------------------------------
  // Effects

  /** The decimal numeral of n, as Python's `str` writes an int. */
  function DecimalString(n: int): (s: string)
    ensures |s| >= 1
    decreases if n < 0 then 1 - n else n
  {
    if n < 0 then "-" + DecimalString(-n)
    else if n < 10 then ["0123456789"[n]]
    else DecimalString(n / 10) + ["0123456789"[n % 10]]
  }

  /** The entry policy research records: `"Turn {turn} Research"`. */
  function ResearchLabel(turn: int): string
  {
    "Turn " + DecimalString(turn) + " Research"
  }

  // Neighborhoods Coalition

  function LaunchMediaCampaign(v: Snapshot): Snapshot
  {
    v.(neigh := v.neigh.(budget := v.neigh.budget - 100000, influence := v.neigh.influence - 10),
       civic := v.civic.(publicSupport := Clamp(v.civic.publicSupport + 8, 0, 100),
                         stigmaIndex := Clamp(v.civic.stigmaIndex + 5, 0, 100)),
       people := v.people.(homelessPopulation := Scale(v.people.homelessPopulation, 99, 100),
                           unsheltered := Scale(v.people.unsheltered, 99, 100)),
       clock := v.clock.(lastPositiveAction := true))
  }

  function FundPrivateSecurity(v: Snapshot): Snapshot
  {
    var displaced := Scale(v.people.unsheltered, 15, 100);
    v.(neigh := v.neigh.(budget := v.neigh.budget - 75000, influence := v.neigh.influence - 15,
                         safetyPerception := Clamp(v.neigh.safetyPerception + 12, 0, 100),
                         propertyValueIndex := Clamp(v.neigh.propertyValueIndex + 2, 0, 150)),
       people := v.people.(unsheltered := v.people.unsheltered - displaced),
       civic := v.civic.(trustIndex := Clamp(v.civic.trustIndex - 10, 0, 100),
                         publicSupport := Clamp(v.civic.publicSupport - 5, 0, 100)),
       tally := v.tally.(humanCostIndex := v.tally.humanCostIndex + 8))
  }

  function SponsorOutreachProgram(v: Snapshot): Snapshot
  {
    var connected := Scale(v.people.unsheltered, 12, 100);
    v.(neigh := v.neigh.(budget := v.neigh.budget - 60000, influence := v.neigh.influence - 8,
                         propertyValueIndex := Clamp(v.neigh.propertyValueIndex + 1, 0, 150)),
       civic := v.civic.(trustIndex := Clamp(v.civic.trustIndex + 6, 0, 100),
                         publicSupport := Clamp(v.civic.publicSupport + 3, 0, 100),
                         serviceCoordination := Clamp(v.civic.serviceCoordination + 5, 0, 100)),
       shelter := v.shelter.(volunteerCount := Scale(v.shelter.volunteerCount, 109, 100)),
       people := v.people.(unsheltered := v.people.unsheltered - connected,
                           sheltered := v.people.sheltered + connected),
       clock := v.clock.(lastPositiveAction := true))
  }

  function HostCommunityForums(v: Snapshot): Snapshot
  {
    v.(neigh := v.neigh.(budget := v.neigh.budget - 15000, influence := v.neigh.influence - 5,
                         complaintRate := Max(0, v.neigh.complaintRate - 8)),
       civic := v.civic.(publicSupport := Clamp(v.civic.publicSupport + 2, 0, 100),
                         serviceCoordination := Clamp(v.civic.serviceCoordination + 3, 0, 100),
                         stigmaIndex := Clamp(v.civic.stigmaIndex - 3, 0, 100)),
       clock := v.clock.(lastPositiveAction := true))
  }

  // Business District Association

  /** The displacement a sweep causes is only narrated, so the populations do not change. */
  function PartnerCitySweeps(v: Snapshot): Snapshot
  {
    v.(biz := v.biz.(budget := v.biz.budget - 120000, influence := v.biz.influence - 12,
                     cleanlinessIndex := Clamp(v.biz.cleanlinessIndex + 18, 0, 100),
                     customerTraffic := Clamp(v.biz.customerTraffic + 6, 0, 150)),
       civic := v.civic.(trustIndex := Clamp(v.civic.trustIndex - 15, 0, 100),
                         publicSupport := Clamp(v.civic.publicSupport - 8, 0, 100)),
       tally := v.tally.(sweepsConducted := v.tally.sweepsConducted + 1,
                         humanCostIndex := v.tally.humanCostIndex + 15))
  }

  function FundJobReadiness(v: Snapshot): Snapshot
  {
    var employed := Scale(v.people.homelessPopulation, 25, 1000);
    v.(biz := v.biz.(budget := v.biz.budget - 180000, influence := v.biz.influence - 8,
                     reputation := Clamp(v.biz.reputation + 8, 0, 100)),
       civic := v.civic.(publicSupport := Clamp(v.civic.publicSupport + 6, 0, 100)),
       people := v.people.(homelessPopulation := v.people.homelessPopulation - employed,
                           transitional := v.people.transitional - employed / 2,
                           sheltered := v.people.sheltered - employed / 2,
                           atRiskPopulation := Scale(v.people.atRiskPopulation, 97, 100)),
       clock := v.clock.(lastPositiveAction := true))
  }

  /** Only as many as the waitlist holds reach a shelter, so people can drop out of
      both counts. */
  function DeployStreetAmbassadors(v: Snapshot): Snapshot
  {
    var connected := Scale(v.people.unsheltered, 18, 100);
    v.(biz := v.biz.(budget := v.biz.budget - 90000, influence := v.biz.influence - 6,
                     reputation := Clamp(v.biz.reputation + 6, 0, 100),
                     cleanlinessIndex := Clamp(v.biz.cleanlinessIndex + 8, 0, 100)),
       shelter := v.shelter.(volunteerCount := v.shelter.volunteerCount + 40,
                             waitlist := Max(0, v.shelter.waitlist - connected / 2)),
       civic := v.civic.(trustIndex := Clamp(v.civic.trustIndex + 8, 0, 100),
                         serviceCoordination := Clamp(v.civic.serviceCoordination + 4, 0, 100)),
       people := v.people.(unsheltered := v.people.unsheltered - connected,
                           sheltered := v.people.sheltered + Min(connected, v.shelter.waitlist)),
       clock := v.clock.(lastPositiveAction := true))
  }

  function SupportAffordableHousing(v: Snapshot): Snapshot
  {
    v.(biz := v.biz.(budget := v.biz.budget - 350000, influence := v.biz.influence - 25,
                     reputation := Clamp(v.biz.reputation + 15, 0, 100)),
       civic := v.civic.(publicSupport := Clamp(v.civic.publicSupport + 12, 0, 100)),
       people := v.people.(atRiskPopulation := Scale(v.people.atRiskPopulation, 94, 100)),
       clock := v.clock.(lastPositiveAction := true))
  }

  // Medical Quarter Consortium

  function OpenHealthClinic(v: Snapshot): Snapshot
  {
    var capacity := v.med.clinicCapacity + 120;
    var housed := Scale(v.people.homelessPopulation, 3, 100);
    v.(med := v.med.(budget := v.med.budget - 200000, influence := v.med.influence - 10,
                     clinicCapacity := capacity,
                     healthOutcomeIndex := Clamp(v.med.healthOutcomeIndex + 12, 0, 100),
                     patientVolume := Min(capacity, v.med.patientVolume + 80),
                     staffBurnout := Clamp(v.med.staffBurnout - 5, 0, 100)),
       people := v.people.(homelessPopulation := v.people.homelessPopulation - housed,
                           sheltered := v.people.sheltered - housed / 2,
                           unsheltered := v.people.unsheltered - housed / 2,
                           atRiskPopulation := Scale(v.people.atRiskPopulation, 98, 100)),
       civic := v.civic.(publicSupport := Clamp(v.civic.publicSupport + 5, 0, 100)),
       clock := v.clock.(lastPositiveAction := true))
  }

  function LaunchMentalHealthServices(v: Snapshot): Snapshot
  {
    var reduction := Scale(v.people.homelessPopulation, 4, 100);
    v.(med := v.med.(budget := v.med.budget - 280000, influence := v.med.influence - 15,
                     healthOutcomeIndex := Clamp(v.med.healthOutcomeIndex + 18, 0, 100),
                     patientVolume := Min(v.med.clinicCapacity, v.med.patientVolume + 100)),
       people := v.people.(homelessPopulation := v.people.homelessPopulation - reduction,
                           transitional := v.people.transitional - reduction / 2,
                           sheltered := v.people.sheltered - reduction / 2),
       civic := v.civic.(publicSupport := Clamp(v.civic.publicSupport + 7, 0, 100),
                         serviceCoordination := Clamp(v.civic.serviceCoordination + 6, 0, 100)),
       clock := v.clock.(lastPositiveAction := true))
  }

  function EstablishMedicalRespite(v: Snapshot): Snapshot
  {
    var housed := Scale(v.people.homelessPopulation, 2, 100);
    v.(med := v.med.(budget := v.med.budget - 160000, influence := v.med.influence - 15,
                     healthOutcomeIndex := Clamp(v.med.healthOutcomeIndex + 10, 0, 100)),
       shelter := v.shelter.(bedCapacity := v.shelter.bedCapacity + 45),
       people := v.people.(homelessPopulation := v.people.homelessPopulation - housed,
                           sheltered := v.people.sheltered - housed),
       civic := v.civic.(publicSupport := Clamp(v.civic.publicSupport + 4, 0, 100),
                         serviceCoordination := Clamp(v.civic.serviceCoordination + 5, 0, 100)),
       clock := v.clock.(lastPositiveAction := true))
  }

  /** The 15% "treated" are only narrated; 8% of the unsheltered reach a shelter. */
  function MobileOutreachMedicine(v: Snapshot): Snapshot
  {
    var connected := Scale(v.people.unsheltered, 8, 100);
    v.(med := v.med.(budget := v.med.budget - 95000, influence := v.med.influence - 8,
                     healthOutcomeIndex := Clamp(v.med.healthOutcomeIndex + 6, 0, 100)),
       civic := v.civic.(trustIndex := Clamp(v.civic.trustIndex + 12, 0, 100),
                         publicSupport := Clamp(v.civic.publicSupport + 3, 0, 100)),
       people := v.people.(unsheltered := v.people.unsheltered - connected,
                           sheltered := v.people.sheltered + connected),
       clock := v.clock.(lastPositiveAction := true))
  }

  // Shelters & Services Network

  function VolunteerRecruitmentDrive(v: Snapshot): Snapshot
  {
    var reduction := Scale(v.people.homelessPopulation, 2, 100);
    v.(shelter := v.shelter.(budget := v.shelter.budget - 50000, influence := v.shelter.influence - 5,
                             volunteerCount := Scale(v.shelter.volunteerCount, 110, 100)),
       people := v.people.(homelessPopulation := v.people.homelessPopulation - reduction,
                           unsheltered := v.people.unsheltered - reduction),
       civic := v.civic.(publicSupport := Clamp(v.civic.publicSupport + 5, 0, 100)),
       uni := v.uni.(communityEngagement := Clamp(v.uni.communityEngagement + 4, 0, 100)),
       med := v.med.(staffBurnout := Clamp(v.med.staffBurnout - 3, 0, 100)),
       clock := v.clock.(lastPositiveAction := true))
  }

  function ExpandShelterCapacity(v: Snapshot): Snapshot
  {
    var moved := Min(180, Min(v.people.unsheltered, v.shelter.waitlist));
    v.(shelter := v.shelter.(budget := v.shelter.budget - 150000, influence := v.shelter.influence - 10,
                             bedCapacity := v.shelter.bedCapacity + 180,
                             waitlist := Max(0, v.shelter.waitlist - 90)),
       people := v.people.(unsheltered := v.people.unsheltered - moved,
                           sheltered := v.people.sheltered + moved),
       civic := v.civic.(publicSupport := Clamp(v.civic.publicSupport - 3, 0, 100)),
       clock := v.clock.(lastPositiveAction := true))
  }

  function HousingNavigationProgram(v: Snapshot): Snapshot
  {
    var placements := Scale(v.people.sheltered, 25, 100);
    v.(shelter := v.shelter.(budget := v.shelter.budget - 120000, influence := v.shelter.influence - 10,
                             housingPlacements := v.shelter.housingPlacements + placements,
                             waitlist := Max(0, v.shelter.waitlist - 60)),
       people := v.people.(homelessPopulation := v.people.homelessPopulation - placements,
                           sheltered := v.people.sheltered - placements),
       civic := v.civic.(publicSupport := Clamp(v.civic.publicSupport + 6, 0, 100),
                         serviceCoordination := Clamp(v.civic.serviceCoordination + 8, 0, 100)),
       clock := v.clock.(lastPositiveAction := true))
  }

  /** Houses 50 people, half of them counted as sheltered and half as unsheltered,
      whether or not that many are in either count. */
  function EstablishPsh(v: Snapshot): Snapshot
  {
    var housed := 50;
    v.(shelter := v.shelter.(budget := v.shelter.budget - 400000, influence := v.shelter.influence - 30,
                             housingPlacements := v.shelter.housingPlacements + housed),
       people := v.people.(homelessPopulation := v.people.homelessPopulation - housed,
                           sheltered := v.people.sheltered - housed / 2,
                           unsheltered := v.people.unsheltered - housed / 2),
       civic := v.civic.(publicSupport := Clamp(v.civic.publicSupport + 10, 0, 100),
                         serviceCoordination := Clamp(v.civic.serviceCoordination + 10, 0, 100)),
       med := v.med.(healthOutcomeIndex := Clamp(v.med.healthOutcomeIndex + 8, 0, 100)),
       clock := v.clock.(lastPositiveAction := true))
  }

  function PartnerUniversityResearch(v: Snapshot): Snapshot
  {
    v.(shelter := v.shelter.(budget := v.shelter.budget - 75000, influence := v.shelter.influence - 8),
       uni := v.uni.(publications := v.uni.publications + 1,
                     influence := Clamp(v.uni.influence + 5, 0, 100),
                     reputationScore := Clamp(v.uni.reputationScore + 6, 0, 100)),
       civic := v.civic.(publicSupport := Clamp(v.civic.publicSupport + 4, 0, 100),
                         serviceCoordination := Clamp(v.civic.serviceCoordination + 6, 0, 100)),
       clock := v.clock.(lastPositiveAction := true))
  }

  // University Consortium

  function StudentOutreachProgram(v: Snapshot): Snapshot
  {
    var connected := Scale(v.people.unsheltered, 10, 100);
    v.(uni := v.uni.(budget := v.uni.budget - 40000, influence := v.uni.influence - 5,
                     communityEngagement := Clamp(v.uni.communityEngagement + 12, 0, 100)),
       shelter := v.shelter.(volunteerCount := v.shelter.volunteerCount + 60),
       people := v.people.(unsheltered := v.people.unsheltered - connected,
                           sheltered := v.people.sheltered + connected),
       civic := v.civic.(publicSupport := Clamp(v.civic.publicSupport + 3, 0, 100)),
       clock := v.clock.(lastPositiveAction := true))
  }

  function ConductPolicyResearch(v: Snapshot): Snapshot
  {
    v.(uni := v.uni.(budget := v.uni.budget - 90000, influence := v.uni.influence - 10,
                     publications := v.uni.publications + 1,
                     researchProjects := v.uni.researchProjects + [ResearchLabel(v.clock.turn)],
                     reputationScore := Clamp(v.uni.reputationScore + 8, 0, 100)),
       civic := v.civic.(serviceCoordination := Clamp(v.civic.serviceCoordination + 8, 0, 100),
                         publicSupport := Clamp(v.civic.publicSupport + 2, 0, 100)),
       neigh := v.neigh.(influence := Clamp(v.neigh.influence + 5, 0, 100)),
       biz := v.biz.(influence := Clamp(v.biz.influence + 5, 0, 100)),
       med := v.med.(influence := Clamp(v.med.influence + 5, 0, 100)),
       shelter := v.shelter.(influence := Clamp(v.shelter.influence + 5, 0, 100)),
       clock := v.clock.(lastPositiveAction := true))
  }

  /** `succeeds` is the outcome of the pilot's 60% draw. */
  function PilotInnovationProgram(v: Snapshot, succeeds: bool): Snapshot
  {
    var charged := v.(uni := v.uni.(budget := v.uni.budget - 150000, influence := v.uni.influence - 20,
                                    researchFunding := v.uni.researchFunding - 150000),
                      tally := v.tally.(pilotActive := true));
    var tried :=
      if succeeds then
        charged.(people := v.people.(homelessPopulation := v.people.homelessPopulation - 40,
                                     unsheltered := v.people.unsheltered - 40),
                 uni := charged.uni.(reputationScore := Clamp(v.uni.reputationScore + 12, 0, 100),
                                     publications := v.uni.publications + 1),
                 civic := v.civic.(publicSupport := Clamp(v.civic.publicSupport + 5, 0, 100)))
      else
        charged.(uni := charged.uni.(reputationScore := Clamp(v.uni.reputationScore - 5, 0, 100)));
    tried.(uni := tried.uni.(communityEngagement := Clamp(v.uni.communityEngagement + 8, 0, 100)),
           clock := v.clock.(lastPositiveAction := true))
  }

  function CommunityAcademicForums(v: Snapshot): Snapshot
  {
    v.(uni := v.uni.(budget := v.uni.budget - 25000, influence := v.uni.influence - 8,
                     communityEngagement := Clamp(v.uni.communityEngagement + 15, 0, 100)),
       civic := v.civic.(serviceCoordination := Clamp(v.civic.serviceCoordination + 6, 0, 100),
                         publicSupport := Clamp(v.civic.publicSupport + 3, 0, 100),
                         stigmaIndex := Clamp(v.civic.stigmaIndex - 5, 0, 100)),
       clock := v.clock.(lastPositiveAction := true))
  }

  function DevelopDataDashboard(v: Snapshot): Snapshot
  {
    v.(uni := v.uni.(budget := v.uni.budget - 60000, influence := v.uni.influence - 6,
                     reputationScore := Clamp(v.uni.reputationScore + 10, 0, 100)),
       civic := v.civic.(serviceCoordination := Clamp(v.civic.serviceCoordination + 10, 0, 100),
                         publicSupport := Clamp(v.civic.publicSupport + 6, 0, 100)),
       clock := v.clock.(lastPositiveAction := true))
  }

  /** The catalog's transformer for each operator, before `update_turn`. */
  function Effect(op: Op, v: Snapshot, succeeds: bool): Snapshot
  {
    match op
    case MediaCampaign => LaunchMediaCampaign(v)
    case PrivateSecurity => FundPrivateSecurity(v)
    case OutreachProgram => SponsorOutreachProgram(v)
    case CommunityForums => HostCommunityForums(v)
    case CitySweeps => PartnerCitySweeps(v)
    case JobReadiness => FundJobReadiness(v)
    case StreetAmbassadors => DeployStreetAmbassadors(v)
    case AffordableHousing => SupportAffordableHousing(v)
    case HealthClinic => OpenHealthClinic(v)
    case MentalHealth => LaunchMentalHealthServices(v)
    case MedicalRespite => EstablishMedicalRespite(v)
    case MobileOutreach => MobileOutreachMedicine(v)
    case VolunteerDrive => VolunteerRecruitmentDrive(v)
    case ExpandShelter => ExpandShelterCapacity(v)
    case HousingNavigation => HousingNavigationProgram(v)
    case Psh => EstablishPsh(v)
    case ResearchPartner => PartnerUniversityResearch(v)
    case StudentOutreach => StudentOutreachProgram(v)
    case PolicyResearch => ConductPolicyResearch(v)
    case PilotProgram => PilotInnovationProgram(v, succeeds)
    case AcademicForums => CommunityAcademicForums(v)
    case DataDashboard => DevelopDataDashboard(v)
  }

  /** Only the pilot depends on the outcome of a draw. */
  lemma DrawOnlyMattersToPilot(op: Op, v: Snapshot, succeeds: bool)
    requires op != PilotProgram
    ensures Effect(op, v, succeeds) == Effect(op, v, !succeeds)
  {
  }

  /** One move: the operator's effect followed by `update_turn`. */
  function Step(op: Op, v: Snapshot, succeeds: bool): Snapshot
  {
    UpdateTurn(Effect(op, v, succeeds))
  }

  // ---------------------------------------------------------------------------
  // Properties of single moves

  /** An operator leaves the mover, the round and the season alone; only
      `update_turn` changes them. */
  lemma EffectKeepsClock(op: Op, v: Snapshot, succeeds: bool)
    ensures Effect(op, v, succeeds).clock.(lastPositiveAction := v.clock.lastPositiveAction) == v.clock
    ensures Effect(op, v, succeeds).win == v.win && Effect(op, v, succeeds).winner == v.winner
  {
  }

  /** A move hands the turn to the next role, and a round ends exactly when the
      turn comes back to Neighborhoods. */
  lemma StepClock(op: Op, v: Snapshot, succeeds: bool)
    ensures var r := Step(op, v, succeeds);
      && r.clock.whoseTurn == NextPlayer(v.clock.whoseTurn)
      && r.clock.turn == (if r.clock.whoseTurn == NEIGHBORHOODS then v.clock.turn + 1 else v.clock.turn)
      && r.win == v.win && r.winner == v.winner
  {
    EffectKeepsClock(op, v, succeeds);
    UpdateTurnSpec(Effect(op, v, succeeds), Step(op, v, succeeds));
  }

  /** The owner pays exactly the operator's cost, in budget and in influence, and
      only the pilot draws on the research funding. */
  lemma EffectCharges(op: Op, v: Snapshot, succeeds: bool)
    ensures var r := Effect(op, v, succeeds);
      && Budget(Owner(op), r) == Budget(Owner(op), v) - Cost(op)
      && Influence(Owner(op), r) == Influence(Owner(op), v) - InfluenceCost(op)
      && r.uni.researchFunding == v.uni.researchFunding - (if op == PilotProgram then 150000 else 0)
  {
  }

  /** No other role's budget and not the city's budget changes. */
  lemma EffectSparesOthers(op: Op, v: Snapshot, succeeds: bool, role: int)
    requires Acting(role) && role != Owner(op)
    ensures Budget(role, Effect(op, v, succeeds)) == Budget(role, v)
    ensures Effect(op, v, succeeds).civic.governmentBudget == v.civic.governmentBudget
  {
  }

  /** `update_turn` changes no budget, no influence and not the research funding. */
  lemma UpdateTurnKeepsFunds(v: Snapshot)
    ensures forall role :: Acting(role) ==>
      Budget(role, UpdateTurn(v)) == Budget(role, v) && Influence(role, UpdateTurn(v)) == Influence(role, v)
    ensures UpdateTurn(v).civic.governmentBudget == v.civic.governmentBudget
    ensures UpdateTurn(v).uni.researchFunding == v.uni.researchFunding
  {
    UpdateTurnSpec(v, UpdateTurn(v));
  }

  /** A move charges its owner exactly the operator's cost and leaves every other
      budget, and the city's, as it was: no move increases any budget. */
  lemma StepPaysCost(op: Op, v: Snapshot, succeeds: bool)
    ensures var r := Step(op, v, succeeds);
      && Budget(Owner(op), r) == Budget(Owner(op), v) - Cost(op)
      && Influence(Owner(op), r) == Influence(Owner(op), v) - InfluenceCost(op)
      && (forall role :: Acting(role) && role != Owner(op) ==> Budget(role, r) == Budget(role, v))
      && r.civic.governmentBudget == v.civic.governmentBudget
      && r.uni.researchFunding == v.uni.researchFunding - (if op == PilotProgram then 150000 else 0)
  {
    EffectCharges(op, v, succeeds);
    forall role | Acting(role) && role != Owner(op)
      ensures Budget(role, Step(op, v, succeeds)) == Budget(role, v)
    {
      EffectSparesOthers(op, v, succeeds, role);
    }
    EffectSparesOthers(op, v, succeeds, if Owner(op) == NEIGHBORHOODS then BUSINESS else NEIGHBORHOODS);
    UpdateTurnKeepsFunds(Effect(op, v, succeeds));
  }

  /** A legal move never drives a budget or the research funding negative. */
  lemma LegalStepKeepsFunded(op: Op, v: Snapshot, succeeds: bool)
    requires Funded(v) && Legal(op, v)
    ensures Funded(Step(op, v, succeeds))
  {
    LegalCoversCost(op, v);
    StepPaysCost(op, v, succeeds);
    var r := Step(op, v, succeeds);
    assert forall role :: Acting(role) ==> Budget(role, r) >= 0;
    assert Budget(NEIGHBORHOODS, r) >= 0 && Budget(BUSINESS, r) >= 0 && Budget(MEDICAL, r) >= 0;
    assert Budget(SHELTERS, r) >= 0 && Budget(UNIVERSITY, r) >= 0;
  }

  /** Every operator keeps the clamped metrics in range, the patients within clinic
      capacity and the counters non-negative. */
  lemma EffectKeepsInv(op: Op, v: Snapshot, succeeds: bool)
    requires Inv(v)
    ensures Inv(Effect(op, v, succeeds))
  {
    ScaleGrows(v.shelter.volunteerCount, 109, 100);
    ScaleGrows(v.shelter.volunteerCount, 110, 100);
  }

  /** `update_turn` keeps the invariant. */
  lemma UpdateTurnKeepsInv(v: Snapshot)
    requires Inv(v)
    ensures Inv(UpdateTurn(v))
  {
    UpdateTurnSpec(v, UpdateTurn(v));
    SeasonalEffectsSpec(DecaySupport(v), SeasonalEffects(DecaySupport(v)));
  }

  lemma StepKeepsInv(op: Op, v: Snapshot, succeeds: bool)
    requires Inv(v)
    ensures Inv(Step(op, v, succeeds))
  {
    EffectKeepsInv(op, v, succeeds);
    UpdateTurnKeepsInv(Effect(op, v, succeeds));
  }

  /** The outreach operators and shelter expansion move people from the unsheltered
      to the sheltered count: the sum of the two and the homeless population stay
      as they were. Shelter expansion moves at most 180, and no more than the
      unsheltered count or the waitlist. */
  lemma OutreachMovesPeople(op: Op, v: Snapshot, succeeds: bool)
    requires op in {OutreachProgram, MobileOutreach, StudentOutreach, ExpandShelter}
    ensures var r := Step(op, v, succeeds);
      && r.people.unsheltered + r.people.sheltered == v.people.unsheltered + v.people.sheltered
      && r.people.homelessPopulation == v.people.homelessPopulation
      && r.people.transitional == v.people.transitional
    ensures op == ExpandShelter ==>
      var moved := Step(op, v, succeeds).people.sheltered - v.people.sheltered;
      moved <= 180 && moved <= v.people.unsheltered && moved <= v.shelter.waitlist
      && (0 <= v.people.unsheltered && 0 <= v.shelter.waitlist ==> 0 <= moved)
  {
    UpdateTurnSpec(Effect(op, v, succeeds), Step(op, v, succeeds));
  }

  /** The counters as an operator's effect leaves them, before the turn passes. */
  lemma EffectCounters(op: Op, v: Snapshot, succeeds: bool)
    ensures var r := Effect(op, v, succeeds);
      && v.uni.publications <= r.uni.publications
      && r.tally.sweepsConducted == v.tally.sweepsConducted + (if op == CitySweeps then 1 else 0)
      && v.tally.humanCostIndex <= r.tally.humanCostIndex
      && r.tally.homelessDeaths == v.tally.homelessDeaths
      && r.tally.pilotActive == (v.tally.pilotActive || op == PilotProgram)
      && r.uni.researchProjects ==
           if op == PolicyResearch then v.uni.researchProjects + [ResearchLabel(v.clock.turn)]
           else v.uni.researchProjects
    ensures 0 <= v.people.sheltered ==>
      v.shelter.housingPlacements <= Effect(op, v, succeeds).shelter.housingPlacements
  {
    ScaleShrinks(v.people.sheltered, 25, 100);
  }

  /** `update_turn` leaves the university and the placements alone, and of the
      tracking counters only adds to the death toll. */
  lemma UpdateTurnKeepsCounters(v: Snapshot)
    ensures UpdateTurn(v).uni == v.uni
    ensures UpdateTurn(v).shelter.housingPlacements == v.shelter.housingPlacements
    ensures UpdateTurn(v).tally == v.tally.(homelessDeaths := UpdateTurn(v).tally.homelessDeaths)
    ensures v.tally.homelessDeaths <= UpdateTurn(v).tally.homelessDeaths
  {
    UpdateTurnSpec(v, UpdateTurn(v));
  }

  /** Placements, publications, sweeps, the human cost and the death toll never go
      down; the pilot flag, once set, stays set; policy research appends exactly
      one entry to the research projects and nothing else touches them. */
  lemma StepCounters(op: Op, v: Snapshot, succeeds: bool)
    ensures var r := Step(op, v, succeeds);
      && v.uni.publications <= r.uni.publications
      && r.tally.sweepsConducted == v.tally.sweepsConducted + (if op == CitySweeps then 1 else 0)
      && v.tally.humanCostIndex <= r.tally.humanCostIndex
      && v.tally.homelessDeaths <= r.tally.homelessDeaths
      && r.tally.pilotActive == (v.tally.pilotActive || op == PilotProgram)
      && r.uni.researchProjects ==
           if op == PolicyResearch then v.uni.researchProjects + [ResearchLabel(v.clock.turn)]
           else v.uni.researchProjects
    ensures 0 <= v.people.sheltered ==>
      v.shelter.housingPlacements <= Step(op, v, succeeds).shelter.housingPlacements
  {
    EffectCounters(op, v, succeeds);
    UpdateTurnKeepsCounters(Effect(op, v, succeeds));
  }

  /** Permanent supportive housing takes 25 from the unsheltered count whatever it
      holds, so that count can go negative. */
  lemma PshCanOvershoot()
    ensures var v := Initial().(people := Initial().people.(unsheltered := 0));
      Inv(v) && Step(Psh, v, false).people.unsheltered < 0
  {
  }

  /** The homeless total is not recomputed from its parts: the first legal move of
      a game can already make them disagree. */
  lemma PartsDriftFromTotal()
    ensures var v := Initial();
      && v.people.homelessPopulation == v.people.unsheltered + v.people.sheltered + v.people.transitional
      && Legal(PrivateSecurity, v)
      && var r := Step(PrivateSecurity, v, false);
         r.people.homelessPopulation != r.people.unsheltered + r.people.sheltered + r.people.transitional
  {
  }

  // ---------------------------------------------------------------------------
  // Properties of play

  /** One move: an operator and, for the pilot, the outcome of its draw. */
  datatype Move = Move(op: Op, succeeds: bool)

  /** The state after playing the moves in order, legal or not. */
  function Run(v: Snapshot, moves: seq<Move>): Snapshot
    decreases |moves|
  {
    if moves == [] then v else Run(Step(moves[0].op, v, moves[0].succeeds), moves[1..])
  }

  /** Every move passes its operator's precondition when it is played. */
  predicate LegalRun(v: Snapshot, moves: seq<Move>)
    decreases |moves|
  {
    moves == [] || (Legal(moves[0].op, v) && LegalRun(Step(moves[0].op, v, moves[0].succeeds), moves[1..]))
  }

  lemma {:induction false} RunKeepsInv(v: Snapshot, moves: seq<Move>)
    requires Inv(v)
    ensures Inv(Run(v, moves))
    decreases |moves|
  {
    if moves != [] {
      StepKeepsInv(moves[0].op, v, moves[0].succeeds);
      RunKeepsInv(Step(moves[0].op, v, moves[0].succeeds), moves[1..]);
    }
  }

  /** Legal play never drives a budget or the research funding negative. */
  lemma {:induction false} LegalRunKeepsFunded(v: Snapshot, moves: seq<Move>)
    requires Funded(v) && LegalRun(v, moves)
    ensures Funded(Run(v, moves))
    decreases |moves|
  {
    if moves != [] {
      LegalStepKeepsFunded(moves[0].op, v, moves[0].succeeds);
      LegalRunKeepsFunded(Step(moves[0].op, v, moves[0].succeeds), moves[1..]);
    }
  }

  function PilotCount(moves: seq<Move>): nat
  {
    if moves == [] then 0 else (if moves[0].op == PilotProgram then 1 else 0) + PilotCount(moves[1..])
  }

  /** The pilot runs at most once in legal play, and not at all once it is active. */
  lemma {:induction false} PilotAtMostOnce(v: Snapshot, moves: seq<Move>)
    requires LegalRun(v, moves)
    ensures PilotCount(moves) <= 1
    ensures v.tally.pilotActive ==> PilotCount(moves) == 0
    decreases |moves|
  {
    if moves != [] {
      var m := moves[0];
      var next := Step(m.op, v, m.succeeds);
      assert Legal(m.op, v) && LegalRun(next, moves[1..]);
      LegalCoversCost(m.op, v);
      StepCounters(m.op, v, m.succeeds);
      PilotAtMostOnce(next, moves[1..]);
    }
  }

  /** No move ever adds to the research funding. */
  lemma {:induction false} FundingNeverRises(v: Snapshot, moves: seq<Move>)
    ensures Run(v, moves).uni.researchFunding <= v.uni.researchFunding
    decreases |moves|
  {
    if moves != [] {
      StepPaysCost(moves[0].op, v, moves[0].succeeds);
      FundingNeverRises(Step(moves[0].op, v, moves[0].succeeds), moves[1..]);
    }
  }

  /** A game starts with 120000 in research funding and the pilot needs 150000, so
      in no game, whatever is played, is the pilot ever offered. */
  lemma PilotNeverOffered(moves: seq<Move>)
    ensures !Legal(PilotProgram, Run(Initial(), moves))
  {
    FundingNeverRises(Initial(), moves);
  }

  /** The role that moves n moves after role k. */
  function RoleAfter(k: int, n: nat): int
  {
    (k + n) % 5
  }

  /** How many rounds end within n moves after role k. */
  function RoundsAfter(k: int, n: nat): int
  {
    (k + n) / 5
  }

  /** The turn rotates through the five acting roles: n moves after role k moved,
      role (k + n) % 5 moves, (k + n) / 5 rounds later. */
  lemma {:induction false} TurnsRotate(v: Snapshot, moves: seq<Move>)
    requires Acting(v.clock.whoseTurn)
    ensures Run(v, moves).clock.whoseTurn == RoleAfter(v.clock.whoseTurn, |moves|)
    ensures Run(v, moves).clock.turn == v.clock.turn + RoundsAfter(v.clock.whoseTurn, |moves|)
    decreases |moves|
  {
    if moves != [] {
      var k, n := v.clock.whoseTurn, |moves| - 1;
      var next := Step(moves[0].op, v, moves[0].succeeds);
      assert Run(v, moves) == Run(next, moves[1..]);
      StepClock(moves[0].op, v, moves[0].succeeds);
      TurnsRotate(next, moves[1..]);
      RotateArith(k, n);
    }
  }

  lemma RotateArith(k: int, n: nat)
    requires Acting(k)
    ensures RoleAfter(NextPlayer(k), n) == RoleAfter(k, n + 1)
    ensures (if NextPlayer(k) == NEIGHBORHOODS then 1 else 0) + RoundsAfter(NextPlayer(k), n) == RoundsAfter(k, n + 1)
  {
  }
}
