/** City Without Walls (CityWithoutWalls.py) as the program runs it: a mutable
    `State` object, copied by every operator and then updated field by field,
    followed by the turn scheduler. Each method is proved to compute exactly the
    rules of module CityRules, so every property proved there holds of the objects here. */
module CityWithoutWalls {
  import R = CityRules
  import opened Arith

  /** The game state. Its attributes are held in records following the game's own
      grouping (scheduling, populations, global metrics, one record per stakeholder,
      tracking) plus the result. An attribute assignment of the game updates one
      field of one record in place; an operator's assignments to the attributes of
      one group, which all read the state as it was, are made as one record update. */
  class State {
    var clock: R.Clock
    var people: R.People
    var civic: R.Civic
    var neigh: R.Neighborhoods
    var biz: R.Business
    var med: R.Medical
    var shelter: R.Shelters
    var uni: R.University
    var tally: R.Tally
    var win: R.Ending
    var winner: int

    /** The value this object currently holds. */
    function View(): R.Snapshot
      reads this
    {
      R.Snapshot(clock, people, civic, neigh, biz, med, shelter, uni, tally, win, winner)
    }

    /** The initial state: Neighborhoods to move in the winter of turn 1. */
    constructor ()
      ensures View() == R.Initial()
    {
      clock := R.Clock(R.NEIGHBORHOODS, R.NEIGHBORHOODS, R.NAMES[R.NEIGHBORHOODS], 1, 0, true);
      people := R.People(10700, 4500, 3800, 2400, 38000);
      civic := R.Civic(50, 1200000, 42, 68, 35);
      neigh := R.Neighborhoods(750000, 65, 100, 45, 22);
      biz := R.Business(900000, 70, 100, 52, 0, 50);
      med := R.Medical(600000, 55, 240, 190, 38, 30);
      shelter := R.Shelters(500000, 50, 3800, 100, 280, 420, 0);
      uni := R.University(400000, 45, 120000, 75, 40, 0, []);
      tally := R.Tally(0, 0, 0, false);
      win := R.Unset;
      winner := -1;
    }

    /** A copy of `prev`; the research projects are a value, so the copy never
        shares them with `prev`. */
    constructor Copy(prev: State)
      ensures View() == prev.View()
    {
      clock := prev.clock;
      people := prev.people;
      civic := prev.civic;
      neigh := prev.neigh;
      biz := prev.biz;
      med := prev.med;
      shelter := prev.shelter;
      uni := prev.uni;
      tally := prev.tally;
      win := prev.win;
      winner := prev.winner;
    }

    /** `check_for_win`: runs the goal check and records a result in `win`/`winner`. */
    method CheckForWin() returns (any: R.Outcome)
      modifies this
      ensures any == R.FindAnyWin(old(View()))
      ensures View() == R.CheckForWin(old(View()))
    {
      any := R.FindAnyWin(View());
      if any.Win? {
        win, winner := any.ending, any.winner;
      }
    }

    /** `is_goal`: whether the game is over, recording the result as `check_for_win` does. */
    method IsGoal() returns (goal: bool)
      modifies this
      ensures goal <==> R.FindAnyWin(old(View())).Win?
      ensures goal ==> win != R.Unset
      ensures View() == R.CheckForWin(old(View()))
    {
      var any := CheckForWin();
      goal := any.Win?;
    }

    /* The effect of each operator on the copy it works on, before the turn passes.
       Each is proved to be the matching effect of module CityRules. */

    method LaunchMediaCampaignEffects()
      modifies this
      ensures View() == R.LaunchMediaCampaign(old(View()))
    {
      neigh := neigh.(budget := neigh.budget - 100000, influence := neigh.influence - 10);
      civic := civic.(publicSupport := Clamp(civic.publicSupport + 8, 0, 100),
                      stigmaIndex := Clamp(civic.stigmaIndex + 5, 0, 100));
      people := people.(homelessPopulation := Scale(people.homelessPopulation, 99, 100),
                        unsheltered := Scale(people.unsheltered, 99, 100));
      clock := clock.(lastPositiveAction := true);
    }

    method FundPrivateSecurityEffects()
      modifies this
      ensures View() == R.FundPrivateSecurity(old(View()))
    {
      var displaced := Scale(people.unsheltered, 15, 100);
      neigh := neigh.(budget := neigh.budget - 75000, influence := neigh.influence - 15,
                      safetyPerception := Clamp(neigh.safetyPerception + 12, 0, 100),
                      propertyValueIndex := Clamp(neigh.propertyValueIndex + 2, 0, 150));
      people := people.(unsheltered := people.unsheltered - displaced);
      civic := civic.(trustIndex := Clamp(civic.trustIndex - 10, 0, 100),
                      publicSupport := Clamp(civic.publicSupport - 5, 0, 100));
      tally := tally.(humanCostIndex := tally.humanCostIndex + 8);
    }

    method SponsorOutreachProgramEffects()
      modifies this
      ensures View() == R.SponsorOutreachProgram(old(View()))
    {
      var connected := Scale(people.unsheltered, 12, 100);
      neigh := neigh.(budget := neigh.budget - 60000, influence := neigh.influence - 8,
                      propertyValueIndex := Clamp(neigh.propertyValueIndex + 1, 0, 150));
      civic := civic.(trustIndex := Clamp(civic.trustIndex + 6, 0, 100),
                      publicSupport := Clamp(civic.publicSupport + 3, 0, 100),
                      serviceCoordination := Clamp(civic.serviceCoordination + 5, 0, 100));
      shelter := shelter.(volunteerCount := Scale(shelter.volunteerCount, 109, 100));
      people := people.(unsheltered := people.unsheltered - connected,
                        sheltered := people.sheltered + connected);
      clock := clock.(lastPositiveAction := true);
    }

    method HostCommunityForumsEffects()
      modifies this
      ensures View() == R.HostCommunityForums(old(View()))
    {
      neigh := neigh.(budget := neigh.budget - 15000, influence := neigh.influence - 5,
                      complaintRate := Max(0, neigh.complaintRate - 8));
      civic := civic.(publicSupport := Clamp(civic.publicSupport + 2, 0, 100),
                      serviceCoordination := Clamp(civic.serviceCoordination + 3, 0, 100),
                      stigmaIndex := Clamp(civic.stigmaIndex - 3, 0, 100));
      clock := clock.(lastPositiveAction := true);
    }

    method PartnerCitySweepsEffects()
      modifies this
      ensures View() == R.PartnerCitySweeps(old(View()))
    {
      biz := biz.(budget := biz.budget - 120000, influence := biz.influence - 12,
                  cleanlinessIndex := Clamp(biz.cleanlinessIndex + 18, 0, 100),
                  customerTraffic := Clamp(biz.customerTraffic + 6, 0, 150));
      civic := civic.(trustIndex := Clamp(civic.trustIndex - 15, 0, 100),
                      publicSupport := Clamp(civic.publicSupport - 8, 0, 100));
      tally := tally.(sweepsConducted := tally.sweepsConducted + 1,
                      humanCostIndex := tally.humanCostIndex + 15);
    }

    method FundJobReadinessEffects()
      modifies this
      ensures View() == R.FundJobReadiness(old(View()))
    {
      var employed := Scale(people.homelessPopulation, 25, 1000);
      biz := biz.(budget := biz.budget - 180000, influence := biz.influence - 8,
                  reputation := Clamp(biz.reputation + 8, 0, 100));
      civic := civic.(publicSupport := Clamp(civic.publicSupport + 6, 0, 100));
      people := people.(homelessPopulation := people.homelessPopulation - employed,
                        transitional := people.transitional - employed / 2,
                        sheltered := people.sheltered - employed / 2,
                        atRiskPopulation := Scale(people.atRiskPopulation, 97, 100));
      clock := clock.(lastPositiveAction := true);
    }

    method DeployStreetAmbassadorsEffects()
      modifies this
      ensures View() == R.DeployStreetAmbassadors(old(View()))
    {
      var connected := Scale(people.unsheltered, 18, 100);
      biz := biz.(budget := biz.budget - 90000, influence := biz.influence - 6,
                  reputation := Clamp(biz.reputation + 6, 0, 100),
                  cleanlinessIndex := Clamp(biz.cleanlinessIndex + 8, 0, 100));
      people := people.(unsheltered := people.unsheltered - connected,
                        sheltered := people.sheltered + Min(connected, shelter.waitlist));
      shelter := shelter.(volunteerCount := shelter.volunteerCount + 40,
                          waitlist := Max(0, shelter.waitlist - connected / 2));
      civic := civic.(trustIndex := Clamp(civic.trustIndex + 8, 0, 100),
                      serviceCoordination := Clamp(civic.serviceCoordination + 4, 0, 100));
      clock := clock.(lastPositiveAction := true);
    }

    method SupportAffordableHousingEffects()
      modifies this
      ensures View() == R.SupportAffordableHousing(old(View()))
    {
      biz := biz.(budget := biz.budget - 350000, influence := biz.influence - 25,
                  reputation := Clamp(biz.reputation + 15, 0, 100));
      civic := civic.(publicSupport := Clamp(civic.publicSupport + 12, 0, 100));
      people := people.(atRiskPopulation := Scale(people.atRiskPopulation, 94, 100));
      clock := clock.(lastPositiveAction := true);
    }

    method OpenHealthClinicEffects()
      modifies this
      ensures View() == R.OpenHealthClinic(old(View()))
    {
      var capacity := med.clinicCapacity + 120;
      var housed := Scale(people.homelessPopulation, 3, 100);
      med := med.(budget := med.budget - 200000, influence := med.influence - 10,
                  clinicCapacity := capacity,
                  healthOutcomeIndex := Clamp(med.healthOutcomeIndex + 12, 0, 100),
                  patientVolume := Min(capacity, med.patientVolume + 80),
                  staffBurnout := Clamp(med.staffBurnout - 5, 0, 100));
      people := people.(homelessPopulation := people.homelessPopulation - housed,
                        sheltered := people.sheltered - housed / 2,
                        unsheltered := people.unsheltered - housed / 2,
                        atRiskPopulation := Scale(people.atRiskPopulation, 98, 100));
      civic := civic.(publicSupport := Clamp(civic.publicSupport + 5, 0, 100));
      clock := clock.(lastPositiveAction := true);
    }

    method LaunchMentalHealthServicesEffects()
      modifies this
      ensures View() == R.LaunchMentalHealthServices(old(View()))
    {
      var reduction := Scale(people.homelessPopulation, 4, 100);
      med := med.(budget := med.budget - 280000, influence := med.influence - 15,
                  healthOutcomeIndex := Clamp(med.healthOutcomeIndex + 18, 0, 100),
                  patientVolume := Min(med.clinicCapacity, med.patientVolume + 100));
      people := people.(homelessPopulation := people.homelessPopulation - reduction,
                        transitional := people.transitional - reduction / 2,
                        sheltered := people.sheltered - reduction / 2);
      civic := civic.(publicSupport := Clamp(civic.publicSupport + 7, 0, 100),
                      serviceCoordination := Clamp(civic.serviceCoordination + 6, 0, 100));
      clock := clock.(lastPositiveAction := true);
    }

    method EstablishMedicalRespiteEffects()
      modifies this
      ensures View() == R.EstablishMedicalRespite(old(View()))
    {
      var housed := Scale(people.homelessPopulation, 2, 100);
      med := med.(budget := med.budget - 160000, influence := med.influence - 15,
                  healthOutcomeIndex := Clamp(med.healthOutcomeIndex + 10, 0, 100));
      shelter := shelter.(bedCapacity := shelter.bedCapacity + 45);
      people := people.(homelessPopulation := people.homelessPopulation - housed,
                        sheltered := people.sheltered - housed);
      civic := civic.(publicSupport := Clamp(civic.publicSupport + 4, 0, 100),
                      serviceCoordination := Clamp(civic.serviceCoordination + 5, 0, 100));
      clock := clock.(lastPositiveAction := true);
    }

    method MobileOutreachMedicineEffects()
      modifies this
      ensures View() == R.MobileOutreachMedicine(old(View()))
    {
      var connected := Scale(people.unsheltered, 8, 100);
      med := med.(budget := med.budget - 95000, influence := med.influence - 8,
                  healthOutcomeIndex := Clamp(med.healthOutcomeIndex + 6, 0, 100));
      civic := civic.(trustIndex := Clamp(civic.trustIndex + 12, 0, 100),
                      publicSupport := Clamp(civic.publicSupport + 3, 0, 100));
      people := people.(unsheltered := people.unsheltered - connected,
                        sheltered := people.sheltered + connected);
      clock := clock.(lastPositiveAction := true);
    }

    method VolunteerRecruitmentDriveEffects()
      modifies this
      ensures View() == R.VolunteerRecruitmentDrive(old(View()))
    {
      var reduction := Scale(people.homelessPopulation, 2, 100);
      shelter := shelter.(budget := shelter.budget - 50000, influence := shelter.influence - 5,
                          volunteerCount := Scale(shelter.volunteerCount, 110, 100));
      people := people.(homelessPopulation := people.homelessPopulation - reduction,
                        unsheltered := people.unsheltered - reduction);
      civic := civic.(publicSupport := Clamp(civic.publicSupport + 5, 0, 100));
      uni := uni.(communityEngagement := Clamp(uni.communityEngagement + 4, 0, 100));
      med := med.(staffBurnout := Clamp(med.staffBurnout - 3, 0, 100));
      clock := clock.(lastPositiveAction := true);
    }

    method ExpandShelterCapacityEffects()
      modifies this
      ensures View() == R.ExpandShelterCapacity(old(View()))
    {
      var moved := Min(180, Min(people.unsheltered, shelter.waitlist));
      shelter := shelter.(budget := shelter.budget - 150000, influence := shelter.influence - 10,
                          bedCapacity := shelter.bedCapacity + 180,
                          waitlist := Max(0, shelter.waitlist - 90));
      people := people.(unsheltered := people.unsheltered - moved,
                        sheltered := people.sheltered + moved);
      civic := civic.(publicSupport := Clamp(civic.publicSupport - 3, 0, 100));
      clock := clock.(lastPositiveAction := true);
    }

    method HousingNavigationProgramEffects()
      modifies this
      ensures View() == R.HousingNavigationProgram(old(View()))
    {
      var placements := Scale(people.sheltered, 25, 100);
      shelter := shelter.(budget := shelter.budget - 120000, influence := shelter.influence - 10,
                          housingPlacements := shelter.housingPlacements + placements,
                          waitlist := Max(0, shelter.waitlist - 60));
      people := people.(homelessPopulation := people.homelessPopulation - placements,
                        sheltered := people.sheltered - placements);
      civic := civic.(publicSupport := Clamp(civic.publicSupport + 6, 0, 100),
                      serviceCoordination := Clamp(civic.serviceCoordination + 8, 0, 100));
      clock := clock.(lastPositiveAction := true);
    }

    method EstablishPshEffects()
      modifies this
      ensures View() == R.EstablishPsh(old(View()))
    {
      var housed := 50;
      shelter := shelter.(budget := shelter.budget - 400000, influence := shelter.influence - 30,
                          housingPlacements := shelter.housingPlacements + housed);
      people := people.(homelessPopulation := people.homelessPopulation - housed,
                        sheltered := people.sheltered - housed / 2,
                        unsheltered := people.unsheltered - housed / 2);
      civic := civic.(publicSupport := Clamp(civic.publicSupport + 10, 0, 100),
                      serviceCoordination := Clamp(civic.serviceCoordination + 10, 0, 100));
      med := med.(healthOutcomeIndex := Clamp(med.healthOutcomeIndex + 8, 0, 100));
      clock := clock.(lastPositiveAction := true);
    }

    method PartnerUniversityResearchEffects()
      modifies this
      ensures View() == R.PartnerUniversityResearch(old(View()))
    {
      shelter := shelter.(budget := shelter.budget - 75000, influence := shelter.influence - 8);
      uni := uni.(publications := uni.publications + 1,
                  influence := Clamp(uni.influence + 5, 0, 100),
                  reputationScore := Clamp(uni.reputationScore + 6, 0, 100));
      civic := civic.(publicSupport := Clamp(civic.publicSupport + 4, 0, 100),
                      serviceCoordination := Clamp(civic.serviceCoordination + 6, 0, 100));
      clock := clock.(lastPositiveAction := true);
    }

    method StudentOutreachProgramEffects()
      modifies this
      ensures View() == R.StudentOutreachProgram(old(View()))
    {
      var connected := Scale(people.unsheltered, 10, 100);
      uni := uni.(budget := uni.budget - 40000, influence := uni.influence - 5,
                  communityEngagement := Clamp(uni.communityEngagement + 12, 0, 100));
      shelter := shelter.(volunteerCount := shelter.volunteerCount + 60);
      people := people.(unsheltered := people.unsheltered - connected,
                        sheltered := people.sheltered + connected);
      civic := civic.(publicSupport := Clamp(civic.publicSupport + 3, 0, 100));
      clock := clock.(lastPositiveAction := true);
    }

    method ConductPolicyResearchEffects()
      modifies this
      ensures View() == R.ConductPolicyResearch(old(View()))
    {
      ghost var e := R.ConductPolicyResearch(View());
      uni := uni.(budget := uni.budget - 90000, influence := uni.influence - 10,
                  publications := uni.publications + 1,
                  researchProjects := uni.researchProjects + [R.ResearchLabel(clock.turn)],
                  reputationScore := Clamp(uni.reputationScore + 8, 0, 100));
      assert uni == e.uni;
      civic := civic.(serviceCoordination := Clamp(civic.serviceCoordination + 8, 0, 100),
                      publicSupport := Clamp(civic.publicSupport + 2, 0, 100));
      assert civic == e.civic;
      neigh := neigh.(influence := Clamp(neigh.influence + 5, 0, 100));
      biz := biz.(influence := Clamp(biz.influence + 5, 0, 100));
      med := med.(influence := Clamp(med.influence + 5, 0, 100));
      shelter := shelter.(influence := Clamp(shelter.influence + 5, 0, 100));
      clock := clock.(lastPositiveAction := true);
    }

    method PilotInnovationProgramEffects(succeeds: bool)
      modifies this
      ensures View() == R.PilotInnovationProgram(old(View()), succeeds)
    {
      uni := uni.(budget := uni.budget - 150000, influence := uni.influence - 20,
                  researchFunding := uni.researchFunding - 150000);
      tally := tally.(pilotActive := true);
      if succeeds {
        people := people.(homelessPopulation := people.homelessPopulation - 40,
                          unsheltered := people.unsheltered - 40);
        uni := uni.(reputationScore := Clamp(uni.reputationScore + 12, 0, 100),
                    publications := uni.publications + 1);
        civic := civic.(publicSupport := Clamp(civic.publicSupport + 5, 0, 100));
      } else {
        uni := uni.(reputationScore := Clamp(uni.reputationScore - 5, 0, 100));
      }
      uni := uni.(communityEngagement := Clamp(uni.communityEngagement + 8, 0, 100));
      clock := clock.(lastPositiveAction := true);
    }

    method CommunityAcademicForumsEffects()
      modifies this
      ensures View() == R.CommunityAcademicForums(old(View()))
    {
      uni := uni.(budget := uni.budget - 25000, influence := uni.influence - 8,
                  communityEngagement := Clamp(uni.communityEngagement + 15, 0, 100));
      civic := civic.(serviceCoordination := Clamp(civic.serviceCoordination + 6, 0, 100),
                      publicSupport := Clamp(civic.publicSupport + 3, 0, 100),
                      stigmaIndex := Clamp(civic.stigmaIndex - 5, 0, 100));
      clock := clock.(lastPositiveAction := true);
    }

    method DevelopDataDashboardEffects()
      modifies this
      ensures View() == R.DevelopDataDashboard(old(View()))
    {
      uni := uni.(budget := uni.budget - 60000, influence := uni.influence - 6,
                  reputationScore := Clamp(uni.reputationScore + 10, 0, 100));
      civic := civic.(serviceCoordination := Clamp(civic.serviceCoordination + 10, 0, 100),
                      publicSupport := Clamp(civic.publicSupport + 6, 0, 100));
      clock := clock.(lastPositiveAction := true);
    }
  }

  /** `apply_seasonal_effects`, applied in place. */
  method ApplySeasonalEffects(s: State)
    modifies s
    ensures s.View() == R.SeasonalEffects(old(s.View()))
  {
    var season := R.SEASONS[s.clock.seasonIndex];
    if season == "Winter" {
      if s.people.unsheltered > 3000 {
        var deaths := Scale(s.people.unsheltered, 2, 1000);
        s.tally := s.tally.(homelessDeaths := s.tally.homelessDeaths + deaths);
      }
      var demandIncrease := Scale(s.people.unsheltered, 15, 100);
      s.shelter := s.shelter.(waitlist := Clamp(s.shelter.waitlist + demandIncrease / 10, 0, 5000));
    } else if season == "Summer" {
      if s.med.healthOutcomeIndex < 45 {
        s.med := s.med.(healthOutcomeIndex := Clamp(s.med.healthOutcomeIndex - 2, 0, 100));
      }
    }
  }

  /** `update_turn`, applied in place to the freshly copied state. */
  method UpdateTurn(news: State)
    modifies news
    ensures news.View() == R.UpdateTurn(old(news.View()))
  {
    ghost var v := news.View();
    if !news.clock.lastPositiveAction {
      news.civic := news.civic.(publicSupport := Clamp(news.civic.publicSupport - 1, 0, 100));
    }
    assert news.View() == R.DecaySupport(v);
    ApplySeasonalEffects(news);
    ghost var b := news.View();
    var turnCount := (news.clock.turn - 1) * 5 + (news.clock.whoseTurn + 1);
    if turnCount % 4 == 0 {
      news.shelter := news.shelter.(volunteerCount := Scale(news.shelter.volunteerCount, 95, 100));
    }
    assert news.View() == R.VolunteerAttrition(b);
    ghost var c := news.View();
    if 10 * news.med.patientVolume > 9 * news.med.clinicCapacity {
      news.med := news.med.(staffBurnout := Clamp(news.med.staffBurnout + 8, 0, 100));
    }
    assert news.View() == R.StaffOverwork(c);
    PassTurn(news);
  }

  /** The last part of `update_turn`: the next role moves, and a new round (and
      every third round a new season) begins when that role is Neighborhoods. */
  method PassTurn(news: State)
    modifies news
    ensures news.View() == R.PassTurn(old(news.View()))
  {
    var current := news.clock.whoseTurn;
    var updated := R.NextPlayer(current);
    news.clock := news.clock.(whoseTurn := updated, currentRoleNum := updated, currentRole := R.NAMES[updated]);
    if updated == R.NEIGHBORHOODS {
      news.clock := news.clock.(turn := news.clock.turn + 1, lastPositiveAction := false);
      if news.clock.turn % 3 == 0 {
        news.clock := news.clock.(seasonIndex := (news.clock.seasonIndex + 1) % 4);
      }
    }
  }

  /* The operators of the catalog. Each copies the state, applies its effect to the
     copy and passes the turn, so it computes `CityRules.Step` and never changes `s`. */

  // ---------------------------------------------------------------------------
  // Neighborhoods Coalition operators

  method LaunchMediaCampaign(s: State) returns (ns: State)
    ensures fresh(ns) && ns.View() == R.Step(R.MediaCampaign, s.View(), false)
  {
    ns := new State.Copy(s);
    ns.LaunchMediaCampaignEffects();
    UpdateTurn(ns);
  }

  method FundPrivateSecurity(s: State) returns (ns: State)
    ensures fresh(ns) && ns.View() == R.Step(R.PrivateSecurity, s.View(), false)
  {
    ns := new State.Copy(s);
    ns.FundPrivateSecurityEffects();
    UpdateTurn(ns);
  }

  method SponsorOutreachProgram(s: State) returns (ns: State)
    ensures fresh(ns) && ns.View() == R.Step(R.OutreachProgram, s.View(), false)
  {
    ns := new State.Copy(s);
    ns.SponsorOutreachProgramEffects();
    UpdateTurn(ns);
  }

  method HostCommunityForums(s: State) returns (ns: State)
    ensures fresh(ns) && ns.View() == R.Step(R.CommunityForums, s.View(), false)
  {
    ns := new State.Copy(s);
    ns.HostCommunityForumsEffects();
    UpdateTurn(ns);
  }

  // ---------------------------------------------------------------------------
  // Business District Association operators

  method PartnerCitySweeps(s: State) returns (ns: State)
    ensures fresh(ns) && ns.View() == R.Step(R.CitySweeps, s.View(), false)
  {
    ns := new State.Copy(s);
    ns.PartnerCitySweepsEffects();
    UpdateTurn(ns);
  }

  method FundJobReadiness(s: State) returns (ns: State)
    ensures fresh(ns) && ns.View() == R.Step(R.JobReadiness, s.View(), false)
  {
    ns := new State.Copy(s);
    ns.FundJobReadinessEffects();
    UpdateTurn(ns);
  }

  method DeployStreetAmbassadors(s: State) returns (ns: State)
    ensures fresh(ns) && ns.View() == R.Step(R.StreetAmbassadors, s.View(), false)
  {
    ns := new State.Copy(s);
    ns.DeployStreetAmbassadorsEffects();
    UpdateTurn(ns);
  }

  method SupportAffordableHousing(s: State) returns (ns: State)
    ensures fresh(ns) && ns.View() == R.Step(R.AffordableHousing, s.View(), false)
  {
    ns := new State.Copy(s);
    ns.SupportAffordableHousingEffects();
    UpdateTurn(ns);
  }

  // ---------------------------------------------------------------------------
  // Medical Quarter Consortium operators

  method OpenHealthClinic(s: State) returns (ns: State)
    ensures fresh(ns) && ns.View() == R.Step(R.HealthClinic, s.View(), false)
  {
    ns := new State.Copy(s);
    ns.OpenHealthClinicEffects();
    UpdateTurn(ns);
  }

  method LaunchMentalHealthServices(s: State) returns (ns: State)
    ensures fresh(ns) && ns.View() == R.Step(R.MentalHealth, s.View(), false)
  {
    ns := new State.Copy(s);
    ns.LaunchMentalHealthServicesEffects();
    UpdateTurn(ns);
  }

  method EstablishMedicalRespite(s: State) returns (ns: State)
    ensures fresh(ns) && ns.View() == R.Step(R.MedicalRespite, s.View(), false)
  {
    ns := new State.Copy(s);
    ns.EstablishMedicalRespiteEffects();
    UpdateTurn(ns);
  }

  method MobileOutreachMedicine(s: State) returns (ns: State)
    ensures fresh(ns) && ns.View() == R.Step(R.MobileOutreach, s.View(), false)
  {
    ns := new State.Copy(s);
    ns.MobileOutreachMedicineEffects();
    UpdateTurn(ns);
  }

  // ---------------------------------------------------------------------------
  // Shelters & Services Network operators

  method VolunteerRecruitmentDrive(s: State) returns (ns: State)
    ensures fresh(ns) && ns.View() == R.Step(R.VolunteerDrive, s.View(), false)
  {
    ns := new State.Copy(s);
    ns.VolunteerRecruitmentDriveEffects();
    UpdateTurn(ns);
  }

  method ExpandShelterCapacity(s: State) returns (ns: State)
    ensures fresh(ns) && ns.View() == R.Step(R.ExpandShelter, s.View(), false)
  {
    ns := new State.Copy(s);
    ns.ExpandShelterCapacityEffects();
    UpdateTurn(ns);
  }

  method HousingNavigationProgram(s: State) returns (ns: State)
    ensures fresh(ns) && ns.View() == R.Step(R.HousingNavigation, s.View(), false)
  {
    ns := new State.Copy(s);
    ns.HousingNavigationProgramEffects();
    UpdateTurn(ns);
  }

  method EstablishPsh(s: State) returns (ns: State)
    ensures fresh(ns) && ns.View() == R.Step(R.Psh, s.View(), false)
  {
    ns := new State.Copy(s);
    ns.EstablishPshEffects();
    UpdateTurn(ns);
  }

  method PartnerUniversityResearch(s: State) returns (ns: State)
    ensures fresh(ns) && ns.View() == R.Step(R.ResearchPartner, s.View(), false)
  {
    ns := new State.Copy(s);
    ns.PartnerUniversityResearchEffects();
    UpdateTurn(ns);
  }

  // ---------------------------------------------------------------------------
  // University Consortium operators

  method StudentOutreachProgram(s: State) returns (ns: State)
    ensures fresh(ns) && ns.View() == R.Step(R.StudentOutreach, s.View(), false)
  {
    ns := new State.Copy(s);
    ns.StudentOutreachProgramEffects();
    UpdateTurn(ns);
  }

  method ConductPolicyResearch(s: State) returns (ns: State)
    ensures fresh(ns) && ns.View() == R.Step(R.PolicyResearch, s.View(), false)
  {
    ns := new State.Copy(s);
    ns.ConductPolicyResearchEffects();
    UpdateTurn(ns);
  }

  /** `pilot_innovation_program`; `succeeds` is the outcome of its 60% draw. */
  method PilotInnovationProgram(s: State, succeeds: bool) returns (ns: State)
    ensures fresh(ns) && ns.View() == R.Step(R.PilotProgram, s.View(), succeeds)
  {
    ns := new State.Copy(s);
    ns.PilotInnovationProgramEffects(succeeds);
    UpdateTurn(ns);
  }

  method CommunityAcademicForums(s: State) returns (ns: State)
    ensures fresh(ns) && ns.View() == R.Step(R.AcademicForums, s.View(), false)
  {
    ns := new State.Copy(s);
    ns.CommunityAcademicForumsEffects();
    UpdateTurn(ns);
  }

  method DevelopDataDashboard(s: State) returns (ns: State)
    ensures fresh(ns) && ns.View() == R.Step(R.DataDashboard, s.View(), false)
  {
    ns := new State.Copy(s);
    ns.DevelopDataDashboardEffects();
    UpdateTurn(ns);
  }

  /** Applies the catalog entry for `op`, as the game loop does once it has checked
      the entry's precondition; `succeeds` is used by the pilot only. */
  method Apply(op: R.Op, s: State, succeeds: bool) returns (ns: State)
    ensures fresh(ns) && ns.View() == R.Step(op, s.View(), succeeds)
  {
    if op != R.PilotProgram && succeeds {
      R.DrawOnlyMattersToPilot(op, s.View(), succeeds);
    }
    match op
    case MediaCampaign => ns := LaunchMediaCampaign(s);
    case PrivateSecurity => ns := FundPrivateSecurity(s);
    case OutreachProgram => ns := SponsorOutreachProgram(s);
    case CommunityForums => ns := HostCommunityForums(s);
    case CitySweeps => ns := PartnerCitySweeps(s);
    case JobReadiness => ns := FundJobReadiness(s);
    case StreetAmbassadors => ns := DeployStreetAmbassadors(s);
    case AffordableHousing => ns := SupportAffordableHousing(s);
    case HealthClinic => ns := OpenHealthClinic(s);
    case MentalHealth => ns := LaunchMentalHealthServices(s);
    case MedicalRespite => ns := EstablishMedicalRespite(s);
    case MobileOutreach => ns := MobileOutreachMedicine(s);
    case VolunteerDrive => ns := VolunteerRecruitmentDrive(s);
    case ExpandShelter => ns := ExpandShelterCapacity(s);
    case HousingNavigation => ns := HousingNavigationProgram(s);
    case Psh => ns := EstablishPsh(s);
    case ResearchPartner => ns := PartnerUniversityResearch(s);
    case StudentOutreach => ns := StudentOutreachProgram(s);
    case PolicyResearch => ns := ConductPolicyResearch(s);
    case PilotProgram => ns := PilotInnovationProgram(s, succeeds);
    case AcademicForums => ns := CommunityAcademicForums(s);
    case DataDashboard => ns := DevelopDataDashboard(s);
  }
}
