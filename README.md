# Coverage Clash and City Without Walls in Dafny

This project models the game engines of two turn-based role-playing games, written
for the SOLUZION framework: Coverage Clash (`Healthcare.py`) and City Without Walls
(`CityWithoutWalls.py`).

- **Coverage Clash.** A Policy Maker and an Insurance Company alternate moves over
  seven bounded health-care metrics.
  - The Policy Maker earns one-time bonus turns at public trust of 55, 62 and 72.
  - Lobbying and the two bribes make the Insurer move again.
  - An intercepted fund request opens a bribe menu.
  - The goal check tries six end conditions in a fixed order.
- **City Without Walls.** Five stakeholders (Neighborhoods, Business, Medical,
  Shelters, University) take turns in rounds, and an Observer never moves.
  - Every third round starts a new season; winter kills unsheltered people and
    lengthens the shelter waitlist.
  - Every fourth individual turn some volunteers leave.
  - Twenty-two budget-gated operators move homeless people between categories.
  - The game ends in a catastrophe (deaths or collapse of support) or, after round
    24, in a tier decided by the homeless population and public support.

Each game has two modules:

- **The rules module** (`coverage_rules.dfy`, `city_rules.dfy`). It holds the state
  as an immutable value (`Snapshot`) and every operation as a function:
  - the goal check;
  - `next_player`, `update_turn` and the seasonal effects;
  - the `can_*` preconditions;
  - each operator's effect;
  - one move (`Step`, the effect followed by `update_turn`);
  - a play (`Run`).

  The properties of the game are proved here, as postconditions and lemmas.
- **The engine module** (`coverage_clash.dfy`, `city_without_walls.dfy`). It models
  the program as it runs:
  - a `State` object with a copy constructor;
  - operators that copy the state, update the copy's attributes in place and then
    call `update_turn` on it;
  - `check_for_win`, which writes `win` and `winner`.

  Each engine method is proved equal to a rules-module function:
  - each City `State.<Name>Effects` method equals the rules effect function
    `<Name>`;
  - each operator method of either game returns a fresh state equal to `Step` of
    its `Op`, which is the effect followed by `update_turn`;
  - `UpdateTurn`, `PassTurn` and `CheckForWin` equal the rules functions of the
    same name, and `ApplySeasonalEffects` equals `SeasonalEffects`.

  So every property of the rules holds of the objects, and an operator never
  changes the state it is given.

`arith.dfy` holds the shared `clamp` and the model of Python's `int(x * f)`.

**Modelling choices.**
- The attributes of a state are grouped into records (metrics, scheduling fields,
  ledger, and in City one record per stakeholder). An assignment to an attribute
  updates one field of one record.
- Within one operator, assignments to the same group are combined into one record
  update. Each combined update computes the values the game's assignments produce.
  Most of them read the original state. Where the game reads an attribute it has
  already assigned, the model uses the assigned value: the clinic operators' new
  capacity, and `+=` on an attribute.
- The uninsured rate, a float percentage, is held in integer tenths (13.3% is 133;
  the threshold 17.8% is 178; the clamp range [0, 100] is [0, 1000]).
- `int(x * 0.95)` and its kin are `Scale(x, 95, 100)`, which truncates toward zero
  as Python's `int` does.
- `patient_volume > clinic_capacity * 0.9` is compared exactly, as
  `10 * volume > 9 * capacity`.
- The random draw of Request Funds (`intercepted`) and of the pilot program
  (`succeeds`) is a boolean parameter.
- The `win` message string is an `Ending` tag, with `Unset` for the empty string.

**What the proofs show about the code as written.**
- The pilot is never offered. Research funding starts at 120000, the pilot needs
  150000, and no operator adds to the research funding (`PilotNeverOffered`).
- City Without Walls has no always-legal Pass operator. A University with less than
  25000 left has no legal move at all (`NoMoveAvailable`). A Pass for every role
  would guarantee that a move is always available; the model follows the code,
  which has none.
- Stakeholder influences are subtracted without a clamp, so the invariant does not
  bound them.
- The unsheltered count can go negative (`PshCanOvershoot`).
- The homeless total is not recomputed from its parts, and the two can disagree
  after the first move of a game (`PartsDriftFromTotal`).
- In Coverage Clash, `public_expansion_cap_turns_left` is set to 2 by the expansion
  bribe and is never decremented. Once that bribe is played, Expand Public Coverage
  is illegal for the rest of the game (`ExpansionBlockedForever`).

## Model

| member | source | states |
|---|---|---|
| Arith.Clamp | Healthcare.py:254-255 | `clamp` saturates: the result lies in [lo, hi]; it is the value itself when in range, lo below the range and hi above it (the same function is CityWithoutWalls.py:403-404) |
| Arith.ClampMonotone | CityWithoutWalls.py:403-404 | a larger value never clamps to a smaller result |
| Arith.Scale | CityWithoutWalls.py:360-363 | `int(x * num/den)` truncates toward zero: for x ≥ 0 the result r satisfies r·den ≤ x·num < (r+1)·den, and symmetrically for x ≤ 0 |
| Arith.ScaleShrinks | CityWithoutWalls.py:360-363 | a fraction at most one never increases a non-negative count, and keeps it non-negative (volunteer attrition) |
| Arith.ScaleGrows | CityWithoutWalls.py:468 | a fraction at least one never decreases a non-negative count (volunteer growth of 9% and 10%) |
| CoverageRules.Initial | Healthcare.py:57-84 | the starting state satisfies the invariant, the Policy Maker moves, no bonus is used and the goal check finds nothing |
| CoverageRules.FindAnyWin | Healthcare.py:135-154 | no result exactly when all six end conditions fail; the Policy Maker wins exactly when the gap is below 13; the Insurer wins exactly when, with gap ≥ 13, profit exceeds 85 or (with no shared loss) gap exceeds 45 or trust falls below 30; both lose exactly when gap ≥ 13, profit ≤ 85 and uninsured > 17.8% or health < 30; for each of the six endings, the exact condition under which it is the one reported, so the uninsured rate takes priority over health, and profit over the gap over trust |
| CoverageRules.CheckForWin | Healthcare.py:156-163 | a found result is written to `win`/`winner`; with none the state is unchanged; nothing else is written and a recorded result is never cleared |
| CoverageRules.CheckForWinIdempotent | Healthcare.py:156-163 | checking twice gives the same state as checking once |
| CoverageRules.NextPlayer | Healthcare.py:217-219 | the next player is one of the two roles, and differs from a current role |
| CoverageRules.UpdateTurn | Healthcare.py:221-252 | a pending skip is cleared and nothing else changes; the mover stays exactly when a skip was pending or a bonus was earned; a bonus sets only the highest eligible threshold's flag; flags are never reset; otherwise the other role moves with matching role number and name; the premium cap drops by one only when positive and the Policy Maker moves next |
| CoverageRules.Owner | Healthcare.py:562-611 | an operator belongs to the Policy Maker exactly when it is in the Policy Maker's list, and likewise for the Insurer |
| CoverageRules.OperatorsComplete | Healthcare.py:562-611 | the catalog has fifteen distinct entries and lists every operator |
| CoverageRules.Legal | Healthcare.py:514-557 | every precondition requires the owner's turn; each Pass is legal exactly on its role's turn; lobbying needs influence ≥ 75 and `last_lobbied` ≥ 3; the bribes need the bribe menu; expansion needs a non-positive expansion cap and budget ≥ 20 |
| CoverageRules.LegalAmong | Healthcare.py:562-611 | the filtered list holds exactly the listed operators whose precondition holds |
| CoverageRules.LegalOperators | Healthcare.py:553-557 | the offered operators are exactly the legal ones, all the mover's, and never none while a role is to move |
| CoverageRules.Shift | Healthcare.py:254-255 | an unchanged metric stays, a changed one is clamped into its range and equals the plain sum when that is in range |
| CoverageRules.ApplyDeltas | Healthcare.py:270-493 | the operators' clamps keep every metric in range; no change leaves the metrics alone |
| CoverageRules.TurnPass | Healthcare.py:495-509 | a pass keeps the metrics in range (profit is clamped to [0, 100] here) and changes nothing for a non-role |
| CoverageRules.PassCosts | Healthcare.py:495-509 | a Policy Maker pass costs 5 trust (floored at 0) and raises the gap by at most 2, and only when the gap is ≥ 30 or influence ≥ 80; an Insurer pass costs 5 influence and never raises profit, cutting a profit above 102 to 100 once influence is ≤ 65; nothing else changes |
| CoverageRules.Bookkeeping | Healthcare.py:306-493 | lobbying and the bribes leave a skip pending and no other operator touches it; the premium cap stays in [0, 3] and only Cap Premiums changes it; the expansion cap never falls, so once positive it stays positive, and the expansion bribe makes it positive; an intercepted request opens the bribe menu, either bribe closes it, and nothing else opens it; lobbying resets `last_lobbied`, which otherwise never falls and rises by at most one; `funded` rises by one exactly on a fund request, an interception is counted only for an intercepted request, and interceptions never exceed requests |
| CoverageRules.MetricDeltas | Healthcare.py:270-493 | no contract of its own: the table of each operator's metric changes, and of the budget only for an uncontested fund request; `Effect` applies it through `ApplyDeltas`, and `ExpandCoverageWins` uses the expansion's −6 to the gap |
| CoverageRules.BonusEarned | Healthcare.py:229-241 | no contract of its own: a Policy Maker move earns a bonus turn when trust has reached 55, 62 or 72 with that threshold's flag unset; `UpdateTurn` states that the mover stays exactly when this holds or a skip is pending |
| CoverageRules.Effect | Healthcare.py:270-509 | an operator keeps the metrics in range, leaves the scheduling fields and the result alone, and sets the ledger by `Bookkeeping` |
| CoverageRules.Step | Healthcare.py:432-493 | after any move no skip is pending, the bonus flags are never reset, lobbying and the bribes leave the Insurer to move, the bribes close the bribe menu, an intercepted request opens it, and a positive expansion cap stays positive |
| CoverageRules.StepKeepsInv | Healthcare.py:270-509 | every move, legal or not, keeps the invariant (metrics in range, a role to move with consistent role fields, no pending skip, premium cap in [0, 3], interceptions ≤ requests) |
| CoverageRules.CoinOnlyMattersToRequestFunds | Healthcare.py:306-328 | the interception draw affects Request Funds alone |
| CoverageRules.PassEntriesAgree | Healthcare.py:562-611 | the two Pass entries of the catalog have the same effect |
| CoverageRules.RunKeepsInv | Healthcare.py:221-509 | the invariant holds after any sequence of moves |
| CoverageRules.BonusGrantedAtMostOnce | Healthcare.py:229-241 | in any play each threshold's bonus turn is granted at most once, and never once used |
| CoverageRules.ExpansionBlockedForever | Healthcare.py:468-479 | once the expansion cap is positive it stays positive, so Expand Public Coverage is never legal again |
| CoverageRules.LobbyingCannotRepeat | Healthcare.py:432-449 | after a legal lobbying move the Insurer moves again with `last_lobbied` = 0, and cannot lobby again |
| CoverageRules.ExpandCoverageWins | Healthcare.py:270-286 | a legal expansion with the gap below 19 makes the Policy Maker win |
| CoverageClash.State.constructor | Healthcare.py:57-84 | the new object holds the initial state |
| CoverageClash.State.Copy | Healthcare.py:85-112 | the copy holds the same state as the original |
| CoverageClash.State.CheckForWin | Healthcare.py:156-163 | returns the goal check's result and records it as `CheckForWin` does |
| CoverageClash.State.IsGoal | Healthcare.py:165-170 | true exactly when the goal check finds a result, which is then recorded |
| CoverageClash.UpdateTurn | Healthcare.py:221-252 | the in-place update, with its early returns, yields `UpdateTurn` of the old state |
| CoverageClash.ExpandPublicCoverage | Healthcare.py:270-286 | returns a fresh state equal to the expansion move applied to the input |
| CoverageClash.SubsidizeCoverage | Healthcare.py:288-304 | returns a fresh state equal to the subsidy move applied to the input |
| CoverageClash.RequestFunds | Healthcare.py:306-328 | returns a fresh state equal to the request move for the given interception draw |
| CoverageClash.CapPremiums | Healthcare.py:330-345 | returns a fresh state equal to the premium-cap move |
| CoverageClash.MandateCoverage | Healthcare.py:347-361 | returns a fresh state equal to the mandate move |
| CoverageClash.InvestInClinics | Healthcare.py:363-377 | returns a fresh state equal to the clinic-investment move |
| CoverageClash.RaisePremiums | Healthcare.py:381-396 | returns a fresh state equal to the premium-raise move |
| CoverageClash.RiskSelection | Healthcare.py:398-413 | returns a fresh state equal to the risk-selection move |
| CoverageClash.NarrowProviderNetwork | Healthcare.py:415-430 | returns a fresh state equal to the network-narrowing move |
| CoverageClash.LobbyGovernment | Healthcare.py:432-449 | returns a fresh state equal to the lobbying move |
| CoverageClash.MisinformationCampaigns | Healthcare.py:451-466 | returns a fresh state equal to the misinformation move |
| CoverageClash.PreventExpansion | Healthcare.py:468-479 | returns a fresh state equal to the expansion bribe |
| CoverageClash.FundMisinformationWithBribe | Healthcare.py:481-493 | returns a fresh state equal to the misinformation bribe |
| CoverageClash.TurnPass | Healthcare.py:495-509 | returns a fresh state equal to a Pass move |
| CoverageClash.Apply | Healthcare.py:562-611 | applying any catalog entry returns a fresh state equal to `Step` of that operator |
| CityRules.Initial | CityWithoutWalls.py:51-121 | the starting state satisfies the invariant and has every budget funded, Neighborhoods to move in the winter of turn 1, and no result |
| CityRules.FindAnyWin | CityWithoutWalls.py:212-258 | no result exactly when deaths ≤ 50, no collapse (support < 25 after turn 6) and turn ≤ 24; more than 50 deaths is always a crisis with no winner; winner 1 exactly for the two success tiers, winner 0 exactly for a smaller reduction below 10700; for each of the seven endings, the exact condition under which it is reported: a crisis before a collapse, Exemplary (≤ 8560, support > 55) before Success (≤ 9095, support > 45), Partial (≤ 9630) before Minimal (< 10700), and Failure for no reduction |
| CityRules.FewerHomelessNeverWorse | CityWithoutWalls.py:212-258 | with all else equal, a smaller homeless population never gets a worse final result |
| CityRules.CheckForWin | CityWithoutWalls.py:260-264 | a found result is recorded; with none the state is unchanged; only `win`/`winner` change and a result is never cleared |
| CityRules.CheckForWinIdempotent | CityWithoutWalls.py:260-264 | checking twice gives the same state as checking once |
| CityRules.NextPlayer | CityWithoutWalls.py:336-341 | the next player is always an acting role, never the Observer, and for an acting role k it is (k + 1) mod 5 |
| CityRules.SeasonalEffects | CityWithoutWalls.py:383-401 | no contract of its own: its properties are stated by `SeasonalEffectsSpec` |
| CityRules.SeasonalEffectsSpec | CityWithoutWalls.py:383-401 | deaths never decrease and change only in winter with more than 3000 unsheltered; winter keeps the waitlist in [0, 5000]; outside winter shelter and tracking are untouched; summer lowers a health index below 45 by 2; nothing else changes |
| CityRules.DecaySupport | CityWithoutWalls.py:354-355 | only public support changes |
| CityRules.VolunteerAttrition | CityWithoutWalls.py:360-363 | only the volunteer count changes, and a non-negative count never grows or turns negative |
| CityRules.StaffOverwork | CityWithoutWalls.py:366-367 | only staff burnout changes |
| CityRules.PassTurn | CityWithoutWalls.py:369-381 | only the scheduling fields change |
| CityRules.UpdateTurn | CityWithoutWalls.py:352-381 | no contract of its own: support decay, seasonal effects, attrition, burnout and the hand-over in source order; its properties are stated by `UpdateTurnSpec`, `UpdateTurnKeepsFunds`, `UpdateTurnKeepsCounters` and `UpdateTurnKeepsInv` |
| CityRules.UpdateTurnSpec | CityWithoutWalls.py:352-381 | the next player moves, with matching role number and name; the round goes up exactly when Neighborhoods moves next, which also resets the action flag; the season advances mod 4 exactly on a new round whose number is a multiple of 3; support drops by one (floored at 0) exactly after no constructive action; volunteers leave only on every fourth individual turn and never grow; burnout follows the 90% rule; deaths never fall; budgets and populations are untouched |
| CityRules.Owner | CityWithoutWalls.py:1117-1198 | every operator belongs to an acting role, and for each role, exactly the operators in that role's list belong to it |
| CityRules.OperatorsComplete | CityWithoutWalls.py:1117-1198 | the catalog has twenty-two distinct entries and lists every operator |
| CityRules.CatalogByOwner | CityWithoutWalls.py:1117-1198 | each role's list holds only that role's operators |
| CityRules.Cost | CityWithoutWalls.py:413-994 | no contract of its own: the amount each operator deducts from its owner's budget; `LegalCoversCost` shows every precondition covers it and `EffectCharges`/`StepPaysCost` that exactly this is charged |
| CityRules.InfluenceCost | CityWithoutWalls.py:413-994 | no contract of its own: the unclamped amount each operator deducts from its owner's influence; `EffectCharges` shows exactly this is charged |
| CityRules.Legal | CityWithoutWalls.py:1001-1113 | no contract of its own: each `can_*` check (the owner's turn, a budget threshold and the operator's own condition); its properties are stated by `LegalCoversCost`, `LegalOperators`, `LegalStepKeepsFunded` and `NoMoveAvailable` |
| CityRules.LegalCoversCost | CityWithoutWalls.py:1001-1113 | every precondition requires the owner's turn and a budget of at least the cost the operator deducts; the pilot's also requires no active pilot and research funding ≥ 150000 |
| CityRules.LegalAmong | CityWithoutWalls.py:1117-1198 | the filtered list holds exactly the listed operators whose precondition holds |
| CityRules.LegalOperators | CityWithoutWalls.py:1001-1113 | the offered operators are exactly the legal ones, all the mover's |
| CityRules.NoMoveAvailable | CityWithoutWalls.py:1105-1113 | a funded, valid state exists in which no operator is legal, so liveness does not hold |
| CityRules.LaunchMediaCampaign | CityWithoutWalls.py:413-431 | no contract of its own: charges 100000 and 10 influence, raises support and stigma, shrinks the population and the unsheltered by 1%; the charges are stated by `EffectCharges`, the ranges by `EffectKeepsInv`, the counters by `EffectCounters`, and `State.LaunchMediaCampaignEffects` is proved equal to it |
| CityRules.FundPrivateSecurity | CityWithoutWalls.py:433-457 | no contract of its own: charges 75000 and 15 influence, raises safety and property values, removes 15% of the unsheltered from that count alone, lowers trust and support, adds 8 to the human cost; the charges are stated by `EffectCharges`, the ranges by `EffectKeepsInv`, the counters by `EffectCounters`, and `State.FundPrivateSecurityEffects` is proved equal to it |
| CityRules.SponsorOutreachProgram | CityWithoutWalls.py:459-483 | no contract of its own: charges 60000 and 8 influence, moves 12% of the unsheltered to sheltered, grows volunteers by 9%, raises trust, support and coordination; the charges are stated by `EffectCharges`, the ranges by `EffectKeepsInv`, the counters by `EffectCounters`, and `State.SponsorOutreachProgramEffects` is proved equal to it |
| CityRules.HostCommunityForums | CityWithoutWalls.py:485-501 | no contract of its own: charges 15000 and 5 influence, lowers complaints (floored at 0) and stigma, raises support and coordination; the charges are stated by `EffectCharges`, the ranges by `EffectKeepsInv`, the counters by `EffectCounters`, and `State.HostCommunityForumsEffects` is proved equal to it |
| CityRules.PartnerCitySweeps | CityWithoutWalls.py:507-535 | no contract of its own: charges 120000 and 12 influence, raises cleanliness and traffic, lowers trust and support, counts a sweep and adds 15 to the human cost; the populations do not change; the charges are stated by `EffectCharges`, the ranges by `EffectKeepsInv`, the counters by `EffectCounters`, and `State.PartnerCitySweepsEffects` is proved equal to it |
| CityRules.FundJobReadiness | CityWithoutWalls.py:537-561 | no contract of its own: charges 180000 and 8 influence, removes 2.5% of the population, half each from transitional and sheltered, and 3% of the at-risk; the charges are stated by `EffectCharges`, the ranges by `EffectKeepsInv`, the counters by `EffectCounters`, and `State.FundJobReadinessEffects` is proved equal to it |
| CityRules.DeployStreetAmbassadors | CityWithoutWalls.py:563-588 | no contract of its own: charges 90000 and 6 influence, removes 18% of the unsheltered but shelters only as many as the old waitlist holds, adds 40 volunteers; the charges are stated by `EffectCharges`, the ranges by `EffectKeepsInv`, the counters by `EffectCounters`, and `State.DeployStreetAmbassadorsEffects` is proved equal to it |
| CityRules.SupportAffordableHousing | CityWithoutWalls.py:590-610 | no contract of its own: charges 350000 and 25 influence, raises reputation and support, lowers the at-risk population by 6%; the charges are stated by `EffectCharges`, the ranges by `EffectKeepsInv`, the counters by `EffectCounters`, and `State.SupportAffordableHousingEffects` is proved equal to it |
| CityRules.OpenHealthClinic | CityWithoutWalls.py:616-645 | no contract of its own: charges 200000 and 10 influence, adds 120 clinic capacity and up to 80 patients within it, houses 3% of the population; the charges are stated by `EffectCharges`, the ranges by `EffectKeepsInv`, the counters by `EffectCounters`, and `State.OpenHealthClinicEffects` is proved equal to it |
| CityRules.LaunchMentalHealthServices | CityWithoutWalls.py:647-673 | no contract of its own: charges 280000 and 15 influence, removes 4% of the population, adds up to 100 patients within capacity; the charges are stated by `EffectCharges`, the ranges by `EffectKeepsInv`, the counters by `EffectCounters`, and `State.LaunchMentalHealthServicesEffects` is proved equal to it |
| CityRules.EstablishMedicalRespite | CityWithoutWalls.py:675-700 | no contract of its own: charges 160000 and 15 influence, adds 45 beds, houses 2% of the population from the sheltered; the charges are stated by `EffectCharges`, the ranges by `EffectKeepsInv`, the counters by `EffectCounters`, and `State.EstablishMedicalRespiteEffects` is proved equal to it |
| CityRules.MobileOutreachMedicine | CityWithoutWalls.py:702-727 | no contract of its own: charges 95000 and 8 influence, moves 8% of the unsheltered to sheltered, raises health, trust and support; the charges are stated by `EffectCharges`, the ranges by `EffectKeepsInv`, the counters by `EffectCounters`, and `State.MobileOutreachMedicineEffects` is proved equal to it |
| CityRules.VolunteerRecruitmentDrive | CityWithoutWalls.py:733-756 | no contract of its own: charges 50000 and 5 influence, grows volunteers by 10%, removes 2% of the population from the unsheltered, lowers burnout; the charges are stated by `EffectCharges`, the ranges by `EffectKeepsInv`, the counters by `EffectCounters`, and `State.VolunteerRecruitmentDriveEffects` is proved equal to it |
| CityRules.ExpandShelterCapacity | CityWithoutWalls.py:758-781 | no contract of its own: charges 150000 and 10 influence, adds 180 beds, moves min(180, unsheltered, waitlist) to sheltered, lowers the waitlist by 90 and support by 3; the charges are stated by `EffectCharges`, the ranges by `EffectKeepsInv`, the counters by `EffectCounters`, and `State.ExpandShelterCapacityEffects` is proved equal to it |
| CityRules.HousingNavigationProgram | CityWithoutWalls.py:783-809 | no contract of its own: charges 120000 and 10 influence, places 25% of the sheltered in housing, lowers the waitlist by 60; the charges are stated by `EffectCharges`, the ranges by `EffectKeepsInv`, the counters by `EffectCounters`, and `State.HousingNavigationProgramEffects` is proved equal to it |
| CityRules.EstablishPsh | CityWithoutWalls.py:811-836 | no contract of its own: charges 400000 and 30 influence, houses 50 people, 25 each from sheltered and unsheltered whatever those counts are; the charges are stated by `EffectCharges`, the ranges by `EffectKeepsInv`, the counters by `EffectCounters`, and `State.EstablishPshEffects` is proved equal to it |
| CityRules.PartnerUniversityResearch | CityWithoutWalls.py:838-859 | no contract of its own: charges the Shelters 75000 and 8 influence, adds a publication and raises the University's influence and reputation; the charges are stated by `EffectCharges`, the ranges by `EffectKeepsInv`, the counters by `EffectCounters`, and `State.PartnerUniversityResearchEffects` is proved equal to it |
| CityRules.StudentOutreachProgram | CityWithoutWalls.py:865-889 | no contract of its own: charges 40000 and 5 influence, moves 10% of the unsheltered to sheltered, adds 60 volunteers; the charges are stated by `EffectCharges`, the ranges by `EffectKeepsInv`, the counters by `EffectCounters`, and `State.StudentOutreachProgramEffects` is proved equal to it |
| CityRules.ConductPolicyResearch | CityWithoutWalls.py:891-919 | no contract of its own: charges 90000 and 10 influence, adds a publication, appends `Turn n Research`, raises every other role's influence by 5; the charges are stated by `EffectCharges`, the ranges by `EffectKeepsInv`, the counters by `EffectCounters`, and `State.ConductPolicyResearchEffects` is proved equal to it |
| CityRules.PilotInnovationProgram | CityWithoutWalls.py:921-952 | no contract of its own: charges 150000 of budget and research funding and 20 influence, sets the pilot flag; on success houses 40 unsheltered people, otherwise lowers reputation; the charges are stated by `EffectCharges`, the ranges by `EffectKeepsInv`, the counters by `EffectCounters`, and `State.PilotInnovationProgramEffects` is proved equal to it |
| CityRules.CommunityAcademicForums | CityWithoutWalls.py:954-973 | no contract of its own: charges 25000 and 8 influence, raises engagement, coordination and support, lowers stigma; the charges are stated by `EffectCharges`, the ranges by `EffectKeepsInv`, the counters by `EffectCounters`, and `State.CommunityAcademicForumsEffects` is proved equal to it |
| CityRules.DevelopDataDashboard | CityWithoutWalls.py:975-994 | no contract of its own: charges 60000 and 6 influence, raises reputation, coordination and support; the charges are stated by `EffectCharges`, the ranges by `EffectKeepsInv`, the counters by `EffectCounters`, and `State.DevelopDataDashboardEffects` is proved equal to it |
| CityRules.Effect | CityWithoutWalls.py:413-994 | no contract of its own: dispatches each operator to its effect function; stated by `EffectKeepsClock`, `EffectCharges`, `EffectSparesOthers`, `EffectKeepsInv`, `EffectCounters` and `DrawOnlyMattersToPilot` |
| CityRules.Step | CityWithoutWalls.py:352-994 | no contract of its own: an operator's effect followed by `update_turn`; stated by `StepClock`, `StepPaysCost`, `StepKeepsInv`, `StepCounters` and `LegalStepKeepsFunded` |
| CityRules.DrawOnlyMattersToPilot | CityWithoutWalls.py:931 | the success draw affects the pilot alone |
| CityRules.EffectKeepsClock | CityWithoutWalls.py:413-994 | an operator changes no scheduling field except the action flag, and not the result |
| CityRules.StepClock | CityWithoutWalls.py:369-381 | after a move the next player moves and the round goes up exactly when that is Neighborhoods |
| CityRules.EffectCharges | CityWithoutWalls.py:413-994 | an operator takes exactly its cost from its owner's budget and its influence cost from its owner's influence; only the pilot takes 150000 from research funding |
| CityRules.EffectSparesOthers | CityWithoutWalls.py:413-994 | no other role's budget and not the city's budget changes |
| CityRules.UpdateTurnKeepsFunds | CityWithoutWalls.py:352-381 | `update_turn` changes no budget, no influence and not the research funding |
| CityRules.StepPaysCost | CityWithoutWalls.py:413-994 | a move charges its owner exactly the operator's cost, leaves every other budget and the city's as they were, and draws on research funding only for the pilot, so no move increases a budget |
| CityRules.LegalStepKeepsFunded | CityWithoutWalls.py:1001-1113 | a legal move never drives a budget or the research funding negative |
| CityRules.EffectKeepsInv | CityWithoutWalls.py:413-994 | every operator keeps the clamped metrics in range, patients within clinic capacity and the counters non-negative |
| CityRules.UpdateTurnKeepsInv | CityWithoutWalls.py:352-401 | `update_turn` keeps the invariant |
| CityRules.StepKeepsInv | CityWithoutWalls.py:352-994 | every move, legal or not, keeps the invariant |
| CityRules.OutreachMovesPeople | CityWithoutWalls.py:765-772 | the outreach operators (also lines 472-474, 718-720, 878-880) and shelter expansion move people from unsheltered to sheltered, preserving their sum and the homeless total; expansion moves at most min(180, unsheltered, waitlist), and none less than 0 |
| CityRules.EffectCounters | CityWithoutWalls.py:413-994 | an operator never lowers publications, human cost or placements (for a non-negative sheltered count); only sweeps count a sweep; only the pilot sets the pilot flag; only policy research appends exactly one research label |
| CityRules.UpdateTurnKeepsCounters | CityWithoutWalls.py:352-401 | `update_turn` leaves the university and the placements alone and only adds to the death toll |
| CityRules.StepCounters | CityWithoutWalls.py:413-994 | over a move, placements, publications, sweeps, human cost and deaths never go down; the pilot flag, once set, stays set; policy research appends exactly `Turn n Research` |
| CityRules.PshCanOvershoot | CityWithoutWalls.py:811-836 | supportive housing can drive the unsheltered count negative from a valid state |
| CityRules.PartsDriftFromTotal | CityWithoutWalls.py:433-457 | at the start the parts sum to the total and private security is legal; after it they no longer do |
| CityRules.RunKeepsInv | CityWithoutWalls.py:352-994 | the invariant holds after any sequence of moves |
| CityRules.LegalRunKeepsFunded | CityWithoutWalls.py:1001-1113 | legal play never drives a budget or the research funding negative |
| CityRules.PilotAtMostOnce | CityWithoutWalls.py:1100-1103 | in legal play the pilot runs at most once, and never once active |
| CityRules.FundingNeverRises | CityWithoutWalls.py:921-952 | no sequence of moves adds to the research funding |
| CityRules.PilotNeverOffered | CityWithoutWalls.py:1100-1103 | in no game, whatever is played, is the pilot legal |
| CityRules.TurnsRotate | CityWithoutWalls.py:369-381 | n moves after role k, role (k + n) mod 5 moves, (k + n) div 5 rounds later |
| CityWithoutWalls.State.constructor | CityWithoutWalls.py:51-121 | the new object holds the initial state |
| CityWithoutWalls.State.Copy | CityWithoutWalls.py:125-178 | the copy holds the same state, its research projects a value of their own |
| CityWithoutWalls.State.CheckForWin | CityWithoutWalls.py:260-264 | returns the goal check's result and records it as `CheckForWin` does |
| CityWithoutWalls.State.IsGoal | CityWithoutWalls.py:266-270 | true exactly when the goal check finds a result, which is then recorded |
| CityWithoutWalls.State.LaunchMediaCampaignEffects | CityWithoutWalls.py:413-431 | the in-place assignments yield the media campaign's effect |
| CityWithoutWalls.State.FundPrivateSecurityEffects | CityWithoutWalls.py:433-457 | the in-place assignments yield the private security effect |
| CityWithoutWalls.State.SponsorOutreachProgramEffects | CityWithoutWalls.py:459-483 | the in-place assignments yield the outreach program's effect |
| CityWithoutWalls.State.HostCommunityForumsEffects | CityWithoutWalls.py:485-501 | the in-place assignments yield the community forums' effect |
| CityWithoutWalls.State.PartnerCitySweepsEffects | CityWithoutWalls.py:507-535 | the in-place assignments yield the city sweeps' effect |
| CityWithoutWalls.State.FundJobReadinessEffects | CityWithoutWalls.py:537-561 | the in-place assignments yield the job readiness effect |
| CityWithoutWalls.State.DeployStreetAmbassadorsEffects | CityWithoutWalls.py:563-588 | the in-place assignments yield the street ambassadors' effect |
| CityWithoutWalls.State.SupportAffordableHousingEffects | CityWithoutWalls.py:590-610 | the in-place assignments yield the affordable housing effect |
| CityWithoutWalls.State.OpenHealthClinicEffects | CityWithoutWalls.py:616-645 | the in-place assignments yield the health clinic's effect |
| CityWithoutWalls.State.LaunchMentalHealthServicesEffects | CityWithoutWalls.py:647-673 | the in-place assignments yield the mental health services' effect |
| CityWithoutWalls.State.EstablishMedicalRespiteEffects | CityWithoutWalls.py:675-700 | the in-place assignments yield the medical respite's effect |
| CityWithoutWalls.State.MobileOutreachMedicineEffects | CityWithoutWalls.py:702-727 | the in-place assignments yield the mobile outreach effect |
| CityWithoutWalls.State.VolunteerRecruitmentDriveEffects | CityWithoutWalls.py:733-756 | the in-place assignments yield the volunteer drive's effect |
| CityWithoutWalls.State.ExpandShelterCapacityEffects | CityWithoutWalls.py:758-781 | the in-place assignments yield the shelter expansion's effect |
| CityWithoutWalls.State.HousingNavigationProgramEffects | CityWithoutWalls.py:783-809 | the in-place assignments yield the housing navigation effect |
| CityWithoutWalls.State.EstablishPshEffects | CityWithoutWalls.py:811-836 | the in-place assignments yield the supportive housing effect |
| CityWithoutWalls.State.PartnerUniversityResearchEffects | CityWithoutWalls.py:838-859 | the in-place assignments yield the research partnership's effect |
| CityWithoutWalls.State.StudentOutreachProgramEffects | CityWithoutWalls.py:865-889 | the in-place assignments yield the student outreach effect |
| CityWithoutWalls.State.ConductPolicyResearchEffects | CityWithoutWalls.py:891-919 | the in-place assignments, including the append to the research projects, yield the policy research effect |
| CityWithoutWalls.State.PilotInnovationProgramEffects | CityWithoutWalls.py:921-952 | the in-place assignments yield the pilot's effect for the given draw |
| CityWithoutWalls.State.CommunityAcademicForumsEffects | CityWithoutWalls.py:954-973 | the in-place assignments yield the academic forums' effect |
| CityWithoutWalls.State.DevelopDataDashboardEffects | CityWithoutWalls.py:975-994 | the in-place assignments yield the data dashboard's effect |
| CityWithoutWalls.ApplySeasonalEffects | CityWithoutWalls.py:383-401 | the in-place seasonal update, chosen by the season's name, yields `SeasonalEffects` |
| CityWithoutWalls.UpdateTurn | CityWithoutWalls.py:352-381 | the in-place update yields `UpdateTurn` of the old state |
| CityWithoutWalls.PassTurn | CityWithoutWalls.py:369-381 | the in-place hand-over yields `PassTurn` |
| CityWithoutWalls.LaunchMediaCampaign | CityWithoutWalls.py:413-431 | returns a fresh state equal to the media campaign move applied to the input |
| CityWithoutWalls.FundPrivateSecurity | CityWithoutWalls.py:433-457 | returns a fresh state equal to the private security move |
| CityWithoutWalls.SponsorOutreachProgram | CityWithoutWalls.py:459-483 | returns a fresh state equal to the outreach program move |
| CityWithoutWalls.HostCommunityForums | CityWithoutWalls.py:485-501 | returns a fresh state equal to the community forums move |
| CityWithoutWalls.PartnerCitySweeps | CityWithoutWalls.py:507-535 | returns a fresh state equal to the city sweeps move |
| CityWithoutWalls.FundJobReadiness | CityWithoutWalls.py:537-561 | returns a fresh state equal to the job readiness move |
| CityWithoutWalls.DeployStreetAmbassadors | CityWithoutWalls.py:563-588 | returns a fresh state equal to the street ambassadors move |
| CityWithoutWalls.SupportAffordableHousing | CityWithoutWalls.py:590-610 | returns a fresh state equal to the affordable housing move |
| CityWithoutWalls.OpenHealthClinic | CityWithoutWalls.py:616-645 | returns a fresh state equal to the health clinic move |
| CityWithoutWalls.LaunchMentalHealthServices | CityWithoutWalls.py:647-673 | returns a fresh state equal to the mental health services move |
| CityWithoutWalls.EstablishMedicalRespite | CityWithoutWalls.py:675-700 | returns a fresh state equal to the medical respite move |
| CityWithoutWalls.MobileOutreachMedicine | CityWithoutWalls.py:702-727 | returns a fresh state equal to the mobile outreach move |
| CityWithoutWalls.VolunteerRecruitmentDrive | CityWithoutWalls.py:733-756 | returns a fresh state equal to the volunteer drive move |
| CityWithoutWalls.ExpandShelterCapacity | CityWithoutWalls.py:758-781 | returns a fresh state equal to the shelter expansion move |
| CityWithoutWalls.HousingNavigationProgram | CityWithoutWalls.py:783-809 | returns a fresh state equal to the housing navigation move |
| CityWithoutWalls.EstablishPsh | CityWithoutWalls.py:811-836 | returns a fresh state equal to the supportive housing move |
| CityWithoutWalls.PartnerUniversityResearch | CityWithoutWalls.py:838-859 | returns a fresh state equal to the research partnership move |
| CityWithoutWalls.StudentOutreachProgram | CityWithoutWalls.py:865-889 | returns a fresh state equal to the student outreach move |
| CityWithoutWalls.ConductPolicyResearch | CityWithoutWalls.py:891-919 | returns a fresh state equal to the policy research move; the input's research projects are not touched |
| CityWithoutWalls.PilotInnovationProgram | CityWithoutWalls.py:921-952 | returns a fresh state equal to the pilot move for the given draw |
| CityWithoutWalls.CommunityAcademicForums | CityWithoutWalls.py:954-973 | returns a fresh state equal to the academic forums move |
| CityWithoutWalls.DevelopDataDashboard | CityWithoutWalls.py:975-994 | returns a fresh state equal to the data dashboard move |
| CityWithoutWalls.Apply | CityWithoutWalls.py:1117-1198 | applying any catalog entry returns a fresh state equal to `Step` of that operator |

## Left out

- Narration: every `add_to_next_transition` call, a call into the SOLUZION framework that only adds text to the next transition's message.
- Presentation: `goal_message`, `text_view_for_role` and the role hints, `__str__`, `__eq__`/`__hash__` (string-based), `int_to_name`, and City's `whose_move` and `describe_move` (CityWithoutWalls.py:343-350). `text_view_for_role` calls `is_goal` and so writes `win`; the state effect of that call is `State.IsGoal`.
- Session and hosting plumbing: `SESSION`, `get_session`, `is_user_in_role`, the `ROLES` roster, `use_BRIFL_SVG`, the `DEBUG` flags and the metadata constants.
- Healthcare_SVG_FOR_BRIFL.py, the SVG rendering of Coverage Clash, is not part of this model.
- Randomness: `random.random()` in `request_funds` and `pilot_innovation_program` is replaced by a boolean parameter; probabilities are not modelled.
- Floating point: the uninsured rate is exact integer tenths. Python's float arithmetic on it (13.3 - 0.5 and so on) can differ in the last bit, which matters only for a value landing exactly on 17.8. `int(x * 0.95)` and its kin use the exact product, not its IEEE rounding.
- `housing_affordability` (CityWithoutWalls.py:69): a float that is only copied and never changed.
- The operator objects of the catalog (names, preconditions and transformers bundled by the framework): the catalog is the list of `Op` tags, `Legal` is the precondition and `Effect` the transformer; the display names of both games' operators are not modelled.
- `create_initial_state` (CityWithoutWalls.py:1205-1206 and Healthcare.py:617-618): it only calls the constructor, which is modelled.
