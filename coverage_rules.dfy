/** Coverage Clash (Healthcare.py): the rules of the two-role game over immutable
    snapshots of its state. The imperative engine in module CoverageClash builds
    each successor state field by field and is proved to produce exactly the
    snapshots computed here; the properties of the game are proved about these. */
module CoverageRules {
  import opened Arith

  const POLICY_MAKER := 0
  const INSURANCE_COMPANY := 1
  /** Role names, indexed by role number; the third entry only pads the list. */
  const NAMES: seq<string> := ["Policy Maker", "Insurance Company", " "]

  /** Which terminal condition decided the game; `Unset` stands for the empty
      `win` message of a game still in progress. */
  datatype Ending =
    | Unset
    | AccessImproved     // access gap below 13: the Policy Maker wins
    | ProfitTarget       // profit above 85: the Insurance Company wins
    | UninsuredTooHigh   // uninsured rate above 17.8%: both lose
    | HealthCrisis       // public health below 30: both lose
    | AccessGapTooHigh   // access gap above 45: the Policy Maker loses
    | TrustLost          // public trust below 30: the Policy Maker loses

  /** The result of the goal check: nothing yet, or an ending with the winning
      role number (-1 when nobody wins). */
  datatype Outcome = NoWin | Win(ending: Ending, winner: int)

  /** The seven bounded metrics, each kept in range by the operators' clamps. */
  datatype Metrics = Metrics(
    uninsuredRate: int,          // in tenths of a percent: 133 is 13.3%
    publicHealthIndex: int,
    accessGapIndex: int,
    profit: int,
    publicTrustMeter: int,
    influenceMeter: int,
    budget: int)

  /** The scheduling fields: who moves, and which one-time bonus turns were used. */
  datatype Turn = Turn(
    whoseTurn: int,
    currentRoleNum: int,
    currentRole: string,
    bonusTurnUsed55: bool,
    bonusTurnUsed62: bool,
    bonusTurnUsed72: bool)

  /** The caps, menus and counters the operators set. */
  datatype Ledger = Ledger(
    premiumCapTurnsLeft: int,
    skipNextTurn: bool,
    bribeChoiceActive: bool,
    publicExpansionCapTurnsLeft: int,
    lastLobbied: int,
    funded: int,
    intercepted: int)

  /** One state of the game: every field of the game state, grouped. */
  datatype Snapshot = Snapshot(metrics: Metrics, turn: Turn, ledger: Ledger, win: Ending, winner: int)

  /** Every bounded metric within the range its clamps enforce. */
  predicate InRange(m: Metrics)
  {
    && 0 <= m.uninsuredRate <= 1000
    && 0 <= m.publicHealthIndex <= 100
    && 0 <= m.accessGapIndex <= 100
    && 0 <= m.profit <= 200
    && 0 <= m.publicTrustMeter <= 100
    && 0 <= m.influenceMeter <= 100
    && 0 <= m.budget <= 200
  }

  /** The invariant of every state the game reaches: metrics in range, exactly one
      of the two roles to move with consistent role fields, no skip left pending,
      the counters non-negative and never more interceptions than fund requests. */
  predicate Inv(v: Snapshot)
  {
    && InRange(v.metrics)
    && (v.turn.whoseTurn == POLICY_MAKER || v.turn.whoseTurn == INSURANCE_COMPANY)
    && v.turn.currentRoleNum == v.turn.whoseTurn
    && v.turn.currentRole == NAMES[v.turn.whoseTurn]
    && 0 <= v.ledger.premiumCapTurnsLeft <= 3
    && !v.ledger.skipNextTurn
    && 0 <= v.ledger.publicExpansionCapTurnsLeft
    && 0 <= v.ledger.lastLobbied
    && 0 <= v.ledger.intercepted <= v.ledger.funded
  }

  /** The state a new game starts from. */
  function Initial(): (v: Snapshot)
    ensures Inv(v)
    ensures v.turn.whoseTurn == POLICY_MAKER && v.win == Unset
    ensures !v.turn.bonusTurnUsed55 && !v.turn.bonusTurnUsed62 && !v.turn.bonusTurnUsed72
    ensures FindAnyWin(v.metrics) == NoWin
  {
    Snapshot(
      Metrics(133, 60, 30, 65, 50, 70, 70),
      Turn(POLICY_MAKER, POLICY_MAKER, NAMES[POLICY_MAKER], false, false, false),
      Ledger(0, false, false, 0, 0, 0, 0),
      Unset, -1)
  }

  // ---------------------------------------------------------------------------
  // Goal evaluator

  /** `find_any_win`: the goal check, conditions tried in a fixed priority order. */
  function FindAnyWin(m: Metrics): (r: Outcome)
    // it reports a result exactly when some terminal condition holds
    ensures r == NoWin <==>
      && 13 <= m.accessGapIndex <= 45 && m.profit <= 85
      && m.uninsuredRate <= 178 && 30 <= m.publicHealthIndex && 30 <= m.publicTrustMeter
    ensures r.Win? ==> r.ending != Unset && -1 <= r.winner <= 1
    // the Policy Maker wins exactly when the access gap is below 13, whatever else holds
    ensures (r.Win? && r.winner == POLICY_MAKER) <==> m.accessGapIndex < 13
    // the Insurance Company wins by profit first, then by the Policy Maker's defeats,
    // but never ahead of a Policy Maker win or a shared loss
    ensures (r.Win? && r.winner == INSURANCE_COMPANY) <==>
      && 13 <= m.accessGapIndex
      && (|| 85 < m.profit
          || (&& m.uninsuredRate <= 178 && 30 <= m.publicHealthIndex
              && (45 < m.accessGapIndex || m.publicTrustMeter < 30)))
    // both sides lose on a high uninsured rate or a health crisis, unless a win came first
    ensures (r.Win? && r.winner == -1) <==>
      && 13 <= m.accessGapIndex && m.profit <= 85
      && (178 < m.uninsuredRate || m.publicHealthIndex < 30)
    // the ending reported: among conditions with the same winner, the uninsured rate
    // comes before health, and profit before the access gap before trust
    ensures r == Win(AccessImproved, POLICY_MAKER) <==> m.accessGapIndex < 13
    ensures r == Win(ProfitTarget, INSURANCE_COMPANY) <==> 13 <= m.accessGapIndex && 85 < m.profit
    ensures r == Win(UninsuredTooHigh, -1) <==>
      13 <= m.accessGapIndex && m.profit <= 85 && 178 < m.uninsuredRate
    ensures r == Win(HealthCrisis, -1) <==>
      13 <= m.accessGapIndex && m.profit <= 85 && m.uninsuredRate <= 178 && m.publicHealthIndex < 30
    ensures r == Win(AccessGapTooHigh, INSURANCE_COMPANY) <==>
      m.profit <= 85 && m.uninsuredRate <= 178 && 30 <= m.publicHealthIndex && 45 < m.accessGapIndex
    ensures r == Win(TrustLost, INSURANCE_COMPANY) <==>
      && 13 <= m.accessGapIndex <= 45 && m.profit <= 85
      && m.uninsuredRate <= 178 && 30 <= m.publicHealthIndex && m.publicTrustMeter < 30
  {
    if m.accessGapIndex < 13 then Win(AccessImproved, POLICY_MAKER)
    else if m.profit > 85 then Win(ProfitTarget, INSURANCE_COMPANY)
    else if m.uninsuredRate > 178 then Win(UninsuredTooHigh, -1)
    else if m.publicHealthIndex < 30 then Win(HealthCrisis, -1)
    else if m.accessGapIndex > 45 then Win(AccessGapTooHigh, INSURANCE_COMPANY)
    else if m.publicTrustMeter < 30 then Win(TrustLost, INSURANCE_COMPANY)
    else NoWin
  }

  /** `check_for_win`: records the goal check's result in `win`/`winner` when there
      is one and otherwise leaves the state alone. */
  function CheckForWin(v: Snapshot): (r: Snapshot)
    ensures FindAnyWin(v.metrics).Win? ==>
      r.win == FindAnyWin(v.metrics).ending && r.winner == FindAnyWin(v.metrics).winner
    ensures FindAnyWin(v.metrics) == NoWin ==> r == v
    // only the result fields are written
    ensures r.metrics == v.metrics && r.turn == v.turn && r.ledger == v.ledger
    // a recorded result is never cleared
    ensures v.win != Unset ==> r.win != Unset
  {
    var any := FindAnyWin(v.metrics);
    if any.Win? then v.(win := any.ending, winner := any.winner) else v
  }

  /** Checking for a win a second time changes nothing. */
  lemma CheckForWinIdempotent(v: Snapshot)
    ensures CheckForWin(CheckForWin(v)) == CheckForWin(v)
  {
  }

  // ---------------------------------------------------------------------------
  // Turn scheduler

  /** `next_player`: the role after role k; the two roles alternate. */
  function NextPlayer(k: int): (r: int)
    ensures r == POLICY_MAKER || r == INSURANCE_COMPANY
    ensures (k == POLICY_MAKER || k == INSURANCE_COMPANY) ==> r != k
  {
    if k == POLICY_MAKER then INSURANCE_COMPANY else POLICY_MAKER
  }

  /** Whether the mover earns a bonus turn: it is the Policy Maker and trust has
      reached a threshold whose one-time flag is still unset. */
  predicate BonusEarned(v: Snapshot)
  {
    && v.turn.whoseTurn == POLICY_MAKER
    && (|| (v.metrics.publicTrustMeter >= 72 && !v.turn.bonusTurnUsed72)
        || (v.metrics.publicTrustMeter >= 62 && !v.turn.bonusTurnUsed62)
        || (v.metrics.publicTrustMeter >= 55 && !v.turn.bonusTurnUsed55))
  }

  /** `update_turn`: consume a pending skip, else grant a bonus turn, else hand the
      turn to the other role and count down the premium cap on the Policy Maker's turns. */
  function UpdateTurn(v: Snapshot): (r: Snapshot)
    // a pending skip is consumed and nothing else changes: the mover keeps the turn
    ensures v.ledger.skipNextTurn ==> r == v.(ledger := v.ledger.(skipNextTurn := false))
    ensures !r.ledger.skipNextTurn
    // the mover stays exactly when a skip was pending or a bonus turn was earned
    ensures r.turn.whoseTurn == v.turn.whoseTurn <==> v.ledger.skipNextTurn || BonusEarned(v)
    // a bonus turn sets exactly the flag of the highest threshold reached whose flag is unset
    ensures (&& !v.ledger.skipNextTurn && BonusEarned(v)
             && v.metrics.publicTrustMeter >= 72 && !v.turn.bonusTurnUsed72) ==>
      r == v.(turn := v.turn.(bonusTurnUsed72 := true))
    ensures (&& !v.ledger.skipNextTurn && BonusEarned(v)
             && !(v.metrics.publicTrustMeter >= 72 && !v.turn.bonusTurnUsed72)
             && v.metrics.publicTrustMeter >= 62 && !v.turn.bonusTurnUsed62) ==>
      r == v.(turn := v.turn.(bonusTurnUsed62 := true))
    ensures (&& !v.ledger.skipNextTurn && BonusEarned(v)
             && !(v.metrics.publicTrustMeter >= 62 && !v.turn.bonusTurnUsed62)
             && !(v.metrics.publicTrustMeter >= 72 && !v.turn.bonusTurnUsed72)) ==>
      r == v.(turn := v.turn.(bonusTurnUsed55 := true))
    // the one-time flags are only ever set, one at a time
    ensures (v.turn.bonusTurnUsed55 ==> r.turn.bonusTurnUsed55) && (v.turn.bonusTurnUsed62 ==> r.turn.bonusTurnUsed62)
      && (v.turn.bonusTurnUsed72 ==> r.turn.bonusTurnUsed72)
    ensures (r.turn.bonusTurnUsed55 != v.turn.bonusTurnUsed55 ==>
               r.turn.bonusTurnUsed62 == v.turn.bonusTurnUsed62 && r.turn.bonusTurnUsed72 == v.turn.bonusTurnUsed72)
      && (r.turn.bonusTurnUsed62 != v.turn.bonusTurnUsed62 ==> r.turn.bonusTurnUsed72 == v.turn.bonusTurnUsed72)
    // otherwise the other role moves, with consistent role fields
    ensures !v.ledger.skipNextTurn && !BonusEarned(v) ==>
      r.turn == v.turn.(whoseTurn := NextPlayer(v.turn.whoseTurn), currentRoleNum := NextPlayer(v.turn.whoseTurn),
                        currentRole := NAMES[NextPlayer(v.turn.whoseTurn)])
    // the premium cap drops by one only when it was positive and the Policy Maker moves next
    ensures r.ledger.premiumCapTurnsLeft == v.ledger.premiumCapTurnsLeft
      || (&& 0 < v.ledger.premiumCapTurnsLeft && r.ledger.premiumCapTurnsLeft == v.ledger.premiumCapTurnsLeft - 1
          && r.turn.whoseTurn == POLICY_MAKER && r.turn.whoseTurn != v.turn.whoseTurn)
    ensures (&& !v.ledger.skipNextTurn && !BonusEarned(v) && 0 < v.ledger.premiumCapTurnsLeft
             && r.turn.whoseTurn == POLICY_MAKER) ==>
      r.ledger.premiumCapTurnsLeft == v.ledger.premiumCapTurnsLeft - 1
    // nothing but the scheduling fields changes
    ensures r.metrics == v.metrics && r.win == v.win && r.winner == v.winner
    ensures r.ledger.(premiumCapTurnsLeft := v.ledger.premiumCapTurnsLeft, skipNextTurn := v.ledger.skipNextTurn)
      == v.ledger
  {
    var t := v.turn;
    if v.ledger.skipNextTurn then
      v.(ledger := v.ledger.(skipNextTurn := false))
    else if t.whoseTurn == POLICY_MAKER && v.metrics.publicTrustMeter >= 72 && !t.bonusTurnUsed72 then
      v.(turn := t.(bonusTurnUsed72 := true))
    else if t.whoseTurn == POLICY_MAKER && v.metrics.publicTrustMeter >= 62 && !t.bonusTurnUsed62 then
      v.(turn := t.(bonusTurnUsed62 := true))
    else if t.whoseTurn == POLICY_MAKER && v.metrics.publicTrustMeter >= 55 && !t.bonusTurnUsed55 then
      v.(turn := t.(bonusTurnUsed55 := true))
    else
      var updated := NextPlayer(t.whoseTurn);
      var moved := v.(turn := t.(whoseTurn := updated, currentRoleNum := updated, currentRole := NAMES[updated]));
      if moved.ledger.premiumCapTurnsLeft > 0 && moved.turn.whoseTurn == POLICY_MAKER then
        moved.(ledger := moved.ledger.(premiumCapTurnsLeft := moved.ledger.premiumCapTurnsLeft - 1))
      else
        moved
  }

  // ---------------------------------------------------------------------------
  // Operator catalog

  /** The fifteen entries of the catalog; the two Pass entries share one effect. */
  datatype Op =
    | ExpandPublicCoverage | SubsidizeCoverage | RequestFunds | CapPremiums
    | MandateCoverage | InvestInClinics | PolicyMakerPass
    | RaisePremiums | RiskSelection | NarrowProviderNetwork | LobbyGovernment
    | MisinformationCampaigns | PreventExpansion | FundMisinformationWithBribe | InsurerPass
  {
    /** The operators that set `skip_next_turn`, so that the Insurance Company moves again. */
    predicate SkipsTurn()
    {
      this == LobbyGovernment || this == PreventExpansion || this == FundMisinformationWithBribe
    }

    /** The Insurance Company operators other than lobbying that count up `last_lobbied`. */
    predicate CountsSinceLobbying()
    {
      this == RaisePremiums || this == RiskSelection || this == NarrowProviderNetwork
      || this == MisinformationCampaigns
    }
  }

  const POLICY_MAKER_OPS: seq<Op> := [
    ExpandPublicCoverage, SubsidizeCoverage, RequestFunds, CapPremiums,
    MandateCoverage, InvestInClinics, PolicyMakerPass]

  const INSURANCE_COMPANY_OPS: seq<Op> := [
    RaisePremiums, RiskSelection, NarrowProviderNetwork, LobbyGovernment,
    MisinformationCampaigns, PreventExpansion, FundMisinformationWithBribe, InsurerPass]

  const OPERATORS: seq<Op> := POLICY_MAKER_OPS + INSURANCE_COMPANY_OPS

  /** The role whose list an operator belongs to. */
  function Owner(op: Op): (r: int)
    ensures r == POLICY_MAKER <==> op in POLICY_MAKER_OPS
    ensures r == INSURANCE_COMPANY <==> op in INSURANCE_COMPANY_OPS
  {
    match op
    case ExpandPublicCoverage | SubsidizeCoverage | RequestFunds | CapPremiums
      | MandateCoverage | InvestInClinics | PolicyMakerPass => POLICY_MAKER
    case _ => INSURANCE_COMPANY
  }

  /** The catalog lists every operator exactly once. */
  lemma OperatorsComplete(op: Op)
    ensures op in OPERATORS
    ensures |OPERATORS| == 15
    ensures forall i, j :: 0 <= i < j < |OPERATORS| ==> OPERATORS[i] != OPERATORS[j]
  {
  }

  /** The precondition of each operator (the `can_*` functions and the two pass checks). */
  predicate Legal(op: Op, v: Snapshot)
    // every operator is gated on its owner holding the turn
    ensures Legal(op, v) ==> v.turn.whoseTurn == Owner(op)
    // each role's Pass is legal whenever it is that role's turn
    ensures op == PolicyMakerPass ==> (Legal(op, v) <==> v.turn.whoseTurn == POLICY_MAKER)
    ensures op == InsurerPass ==> (Legal(op, v) <==> v.turn.whoseTurn == INSURANCE_COMPANY)
    // lobbying needs influence of at least 75 and three turns since the last lobbying
    ensures op == LobbyGovernment ==>
      (Legal(op, v) <==> v.turn.whoseTurn == INSURANCE_COMPANY && v.metrics.influenceMeter >= 75 && v.ledger.lastLobbied >= 3)
    // the bribe operators are offered only while the bribe menu is active
    ensures (op == PreventExpansion || op == FundMisinformationWithBribe) ==>
      (Legal(op, v) <==> v.turn.whoseTurn == INSURANCE_COMPANY && v.ledger.bribeChoiceActive)
    // expansion is blocked while the expansion cap is positive
    ensures op == ExpandPublicCoverage && Legal(op, v) ==> v.ledger.publicExpansionCapTurnsLeft <= 0 && v.metrics.budget >= 20
  {
    match op
    case ExpandPublicCoverage =>
      v.turn.whoseTurn == POLICY_MAKER && v.metrics.budget >= 20 && v.ledger.publicExpansionCapTurnsLeft <= 0
    case SubsidizeCoverage => v.turn.whoseTurn == POLICY_MAKER && v.metrics.budget >= 14
    case RequestFunds => v.turn.whoseTurn == POLICY_MAKER
    case CapPremiums => v.turn.whoseTurn == POLICY_MAKER && v.metrics.budget >= 14
    case MandateCoverage => v.turn.whoseTurn == POLICY_MAKER && v.metrics.budget >= 10
    case InvestInClinics => v.turn.whoseTurn == POLICY_MAKER && v.metrics.budget >= 18
    case PolicyMakerPass => v.turn.whoseTurn == POLICY_MAKER
    case RaisePremiums => v.turn.whoseTurn == INSURANCE_COMPANY && v.ledger.premiumCapTurnsLeft <= 0
    case RiskSelection => v.turn.whoseTurn == INSURANCE_COMPANY
    case NarrowProviderNetwork => v.turn.whoseTurn == INSURANCE_COMPANY
    case LobbyGovernment =>
      v.turn.whoseTurn == INSURANCE_COMPANY && v.metrics.influenceMeter >= 75 && v.ledger.lastLobbied >= 3
    case MisinformationCampaigns => v.turn.whoseTurn == INSURANCE_COMPANY && v.metrics.profit >= 3
    case PreventExpansion => v.turn.whoseTurn == INSURANCE_COMPANY && v.ledger.bribeChoiceActive
    case FundMisinformationWithBribe => v.turn.whoseTurn == INSURANCE_COMPANY && v.ledger.bribeChoiceActive
    case InsurerPass => v.turn.whoseTurn == INSURANCE_COMPANY
  }

  /** The operators of `ops` whose precondition holds in v, in catalog order. */
  function LegalAmong(ops: seq<Op>, v: Snapshot): (r: seq<Op>)
    ensures forall op :: op in r <==> op in ops && Legal(op, v)
    ensures |r| <= |ops|
  {
    if ops == [] then []
    else if Legal(ops[0], v) then [ops[0]] + LegalAmong(ops[1..], v)
    else LegalAmong(ops[1..], v)
  }

  /** The operators the catalog offers in state v. */
  function LegalOperators(v: Snapshot): (r: seq<Op>)
    ensures forall op :: op in r <==> Legal(op, v)
    // liveness: whichever role holds the turn can at least pass
    ensures (v.turn.whoseTurn == POLICY_MAKER || v.turn.whoseTurn == INSURANCE_COMPANY) ==> r != []
    ensures forall op :: op in r ==> Owner(op) == v.turn.whoseTurn
  {
    var r := LegalAmong(OPERATORS, v);
    assert v.turn.whoseTurn == POLICY_MAKER ==> PolicyMakerPass in r;
    assert v.turn.whoseTurn == INSURANCE_COMPANY ==> InsurerPass in r;
    r
  }

  // ---------------------------------------------------------------------------
  // Effects

  /** What an operator does to one bounded metric: leave it alone, or add an amount
      and clamp the sum back into the metric's range. */
  datatype Change = Keep | Add(amount: int)

  /** An operator's changes to the seven bounded metrics. */
  datatype Deltas = Deltas(
    uninsuredRate: Change, publicHealthIndex: Change, accessGapIndex: Change, profit: Change,
    publicTrustMeter: Change, influenceMeter: Change, budget: Change)

  /** One metric after a change, saturating at the ends of [lo, hi]. */
  function Shift(x: int, c: Change, lo: int, hi: int): (r: int)
    ensures c == Keep ==> r == x
    ensures c.Add? && lo <= hi ==> lo <= r <= hi
    ensures c.Add? && lo <= x + c.amount <= hi ==> r == x + c.amount
  {
    match c
    case Keep => x
    case Add(n) => Clamp(x + n, lo, hi)
  }

  /** Applies metric changes, each clamped to [0, 100] except the uninsured rate
      (tenths, [0, 1000]) and profit and budget ([0, 200]). */
  function ApplyDeltas(m: Metrics, d: Deltas): (r: Metrics)
    ensures InRange(m) ==> InRange(r)
    ensures d == NoChange() ==> r == m
  {
    Metrics(
      Shift(m.uninsuredRate, d.uninsuredRate, 0, 1000),
      Shift(m.publicHealthIndex, d.publicHealthIndex, 0, 100),
      Shift(m.accessGapIndex, d.accessGapIndex, 0, 100),
      Shift(m.profit, d.profit, 0, 200),
      Shift(m.publicTrustMeter, d.publicTrustMeter, 0, 100),
      Shift(m.influenceMeter, d.influenceMeter, 0, 100),
      Shift(m.budget, d.budget, 0, 200))
  }

  function NoChange(): Deltas
  {
    Deltas(Keep, Keep, Keep, Keep, Keep, Keep, Keep)
  }

  /** The metric changes of every operator except Pass, whose changes depend on the
      state; `intercepted` is the outcome of Request Funds' 30% draw, and only an
      uncontested request adds to the budget. */
  function MetricDeltas(op: Op, intercepted: bool): Deltas
  {
    match op
    //                           uninsured health   gap      profit   trust    influence budget
    case ExpandPublicCoverage => Deltas(Add(-5), Add(5),  Add(-6), Add(-5), Add(3),  Keep,    Add(-17))
    case SubsidizeCoverage =>    Deltas(Add(-3), Add(4),  Add(-3), Add(-3), Add(2),  Keep,    Add(-11))
    case RequestFunds =>         NoChange().(budget := if intercepted then Keep else Add(25))
    case CapPremiums =>          Deltas(Add(-2), Keep,    Add(-2), Keep,    Add(5),  Add(-8), Add(-11))
    case MandateCoverage =>      Deltas(Add(-10), Add(3), Add(-4), Keep,    Add(-2), Keep,    Add(-7))
    case InvestInClinics =>      Deltas(Add(-4), Add(6),  Add(-3), Keep,    Add(4),  Keep,    Add(-15))
    case RaisePremiums =>        Deltas(Add(8),  Add(-2), Add(3),  Add(6),  Keep,    Add(-2), Keep)
    case RiskSelection =>        Deltas(Add(6),  Add(-4), Add(6),  Add(5),  Keep,    Add(-4), Keep)
    case NarrowProviderNetwork => Deltas(Add(8), Add(-4), Add(5),  Add(3),  Keep,    Add(-3), Keep)
    case LobbyGovernment =>      Deltas(Add(6),  Add(-4), Add(3),  Keep,    Add(-5), Add(5),  Keep)
    case MisinformationCampaigns => Deltas(Add(3), Keep,  Add(3),  Add(-3), Add(-3), Add(8),  Keep)
    case PreventExpansion =>     Deltas(Keep,    Keep,    Keep,    Add(10), Keep,    Add(8),  Keep)
    case FundMisinformationWithBribe => Deltas(Keep, Keep, Keep,   Add(10), Add(-9), Add(8),  Keep)
    case PolicyMakerPass | InsurerPass => NoChange()
  }

  /** `turn_pass`: a passing Policy Maker loses trust and may let the access gap
      grow; a passing Insurance Company loses influence and, once that is at 65 or
      below, profit, which this operator alone clamps to [0, 100] rather than [0, 200]. */
  function TurnPass(whoseTurn: int, m: Metrics): (r: Metrics)
    ensures InRange(m) ==> InRange(r)
    ensures whoseTurn != POLICY_MAKER && whoseTurn != INSURANCE_COMPANY ==> r == m
  {
    var a :=
      if whoseTurn == POLICY_MAKER then
        var t := m.(publicTrustMeter := Clamp(m.publicTrustMeter - 5, 0, 100));
        var g := if t.accessGapIndex >= 30 then t.(accessGapIndex := Clamp(m.accessGapIndex + 1, 0, 100)) else t;
        if g.influenceMeter >= 80 then g.(accessGapIndex := Clamp(m.accessGapIndex + 2, 0, 100)) else g
      else m;
    if whoseTurn == INSURANCE_COMPANY then
      var i := a.(influenceMeter := Clamp(m.influenceMeter - 5, 0, 100));
      if i.influenceMeter <= 65 then i.(profit := Clamp(m.profit - 2, 0, 100)) else i
    else a
  }

  /** Passing never helps the mover: the Policy Maker loses trust and may see the
      access gap grow by up to 2; the Insurance Company loses influence and may lose
      profit, which a pass also cuts down to 100 when it was higher. Nothing else changes. */
  lemma PassCosts(whoseTurn: int, m: Metrics)
    requires InRange(m)
    ensures var r := TurnPass(whoseTurn, m);
      whoseTurn == POLICY_MAKER ==>
        && r.publicTrustMeter == Max(0, m.publicTrustMeter - 5)
        && m.accessGapIndex <= r.accessGapIndex <= m.accessGapIndex + 2
        && (m.accessGapIndex < 30 && m.influenceMeter < 80 ==> r.accessGapIndex == m.accessGapIndex)
        && r == m.(publicTrustMeter := r.publicTrustMeter, accessGapIndex := r.accessGapIndex)
    ensures var r := TurnPass(whoseTurn, m);
      whoseTurn == INSURANCE_COMPANY ==>
        && r.influenceMeter == Max(0, m.influenceMeter - 5)
        && r.profit <= m.profit
        && (r.influenceMeter > 65 ==> r.profit == m.profit)
        && (r.influenceMeter <= 65 && m.profit > 102 ==> r.profit == 100)
        && r == m.(influenceMeter := r.influenceMeter, profit := r.profit)
    ensures whoseTurn != POLICY_MAKER && whoseTurn != INSURANCE_COMPANY ==> TurnPass(whoseTurn, m) == m
  {
  }

  /** The caps, menus and counters an operator sets. */
  function Bookkeeping(op: Op, l: Ledger, intercepted: bool): (r: Ledger)
    // lobbying and the two bribes ask for the Insurance Company to move again;
    // no other operator touches a pending skip
    ensures op.SkipsTurn() ==> r.skipNextTurn
    ensures !op.SkipsTurn() ==> r.skipNextTurn == l.skipNextTurn
    // the premium cap stays within its three turns, and only capping premiums refills it
    ensures 0 <= l.premiumCapTurnsLeft <= 3 ==> 0 <= r.premiumCapTurnsLeft <= 3
    ensures op != CapPremiums ==> r.premiumCapTurnsLeft == l.premiumCapTurnsLeft
    // no operator counts the expansion cap down: once set it stays set
    ensures 0 <= l.publicExpansionCapTurnsLeft ==> 0 <= r.publicExpansionCapTurnsLeft
    ensures l.publicExpansionCapTurnsLeft > 0 ==> r.publicExpansionCapTurnsLeft > 0
    ensures op == PreventExpansion ==> r.publicExpansionCapTurnsLeft > 0
    // an intercepted fund request opens the bribe menu and either bribe closes it
    ensures op == RequestFunds && intercepted ==> r.bribeChoiceActive
    ensures op == PreventExpansion || op == FundMisinformationWithBribe ==> !r.bribeChoiceActive
    // lobbying resets the lobbying counter, which otherwise never falls
    ensures op == LobbyGovernment ==> r.lastLobbied == 0
    ensures op != LobbyGovernment ==> l.lastLobbied <= r.lastLobbied <= l.lastLobbied + 1
    // fund requests are counted one at a time, and never fewer than their interceptions
    ensures l.funded <= r.funded <= l.funded + 1 && (r.funded == l.funded + 1 <==> op == RequestFunds)
    ensures l.intercepted <= r.intercepted <= l.intercepted + 1
    ensures l.intercepted <= l.funded ==> r.intercepted <= r.funded
    // only an intercepted fund request opens the bribe menu or counts an interception
    ensures !l.bribeChoiceActive && r.bribeChoiceActive ==> op == RequestFunds && intercepted
    ensures r.intercepted == l.intercepted + 1 ==> op == RequestFunds && intercepted
  {
    Ledger(
      if op == CapPremiums then 3 else l.premiumCapTurnsLeft,
      op.SkipsTurn() || l.skipNextTurn,
      if op == PreventExpansion || op == FundMisinformationWithBribe then false
      else if op == RequestFunds && intercepted then true
      else l.bribeChoiceActive,
      if op == PreventExpansion then 2 else l.publicExpansionCapTurnsLeft,
      if op == LobbyGovernment then 0 else if op.CountsSinceLobbying() then l.lastLobbied + 1 else l.lastLobbied,
      l.funded + (if op == RequestFunds then 1 else 0),
      l.intercepted + (if op == RequestFunds && intercepted then 1 else 0))
  }

  /** The field assignments an operator makes on its copy of the state, before the
      turn is updated: new metrics and ledger, the scheduling fields and the result untouched. */
  function Effect(op: Op, v: Snapshot, intercepted: bool): (r: Snapshot)
    ensures InRange(v.metrics) ==> InRange(r.metrics)
    ensures r.turn == v.turn && r.win == v.win && r.winner == v.winner
    ensures r.ledger == Bookkeeping(op, v.ledger, intercepted)
  {
    var m :=
      if op == PolicyMakerPass || op == InsurerPass then TurnPass(v.turn.whoseTurn, v.metrics)
      else ApplyDeltas(v.metrics, MetricDeltas(op, intercepted));
    v.(metrics := m, ledger := Bookkeeping(op, v.ledger, intercepted))
  }

  /** One move: the operator's effect followed by `update_turn`. */
  function Step(op: Op, v: Snapshot, intercepted: bool): (r: Snapshot)
    // every operator returns a state with no skip pending
    ensures !r.ledger.skipNextTurn
    // the one-time bonus flags are never reset
    ensures (v.turn.bonusTurnUsed55 ==> r.turn.bonusTurnUsed55) && (v.turn.bonusTurnUsed62 ==> r.turn.bonusTurnUsed62)
      && (v.turn.bonusTurnUsed72 ==> r.turn.bonusTurnUsed72)
    // lobbying and the bribes leave the mover in place, so a legal one leaves the Insurance Company to move
    ensures op.SkipsTurn() ==> r.turn.whoseTurn == v.turn.whoseTurn
    ensures op.SkipsTurn() && Legal(op, v) ==> r.turn.whoseTurn == INSURANCE_COMPANY
    // the bribes close the bribe menu and an intercepted request opens it
    ensures op == PreventExpansion || op == FundMisinformationWithBribe ==> !r.ledger.bribeChoiceActive
    ensures op == RequestFunds && intercepted ==> r.ledger.bribeChoiceActive
    // once set, the expansion cap stays positive: no operator counts it down
    ensures v.ledger.publicExpansionCapTurnsLeft > 0 ==> r.ledger.publicExpansionCapTurnsLeft > 0
    // the goal result is left to the goal check
    ensures r.win == v.win && r.winner == v.winner
  {
    UpdateTurn(Effect(op, v, intercepted))
  }

  /** Every move, legal or not, keeps the invariant. */
  lemma StepKeepsInv(op: Op, v: Snapshot, intercepted: bool)
    requires Inv(v)
    ensures Inv(Step(op, v, intercepted))
  {
  }

  /** The random draw matters to Request Funds alone. */
  lemma CoinOnlyMattersToRequestFunds(op: Op, v: Snapshot, intercepted: bool)
    requires op != RequestFunds
    ensures Step(op, v, intercepted) == Step(op, v, false)
  {
    assert MetricDeltas(op, intercepted) == MetricDeltas(op, false);
    assert Bookkeeping(op, v.ledger, intercepted) == Bookkeeping(op, v.ledger, false);
  }

  /** The two Pass entries of the catalog have the same effect. */
  lemma PassEntriesAgree(v: Snapshot, intercepted: bool)
    ensures Step(PolicyMakerPass, v, intercepted) == Step(InsurerPass, v, intercepted)
  {
    assert Bookkeeping(PolicyMakerPass, v.ledger, intercepted) == Bookkeeping(InsurerPass, v.ledger, intercepted);
  }

  // ---------------------------------------------------------------------------
  // Properties of play

  /** A move of a play: the operator chosen and the outcome of any random draw it makes. */
  datatype Move = Move(op: Op, intercepted: bool)

  /** The state reached by applying the moves in order. */
  function Run(v: Snapshot, moves: seq<Move>): Snapshot
    decreases |moves|
  {
    if moves == [] then v else Run(Step(moves[0].op, v, moves[0].intercepted), moves[1..])
  }

  /** Whether every move is legal in the state it is applied to. */
  predicate LegalRun(v: Snapshot, moves: seq<Move>)
    decreases |moves|
  {
    moves == [] || (Legal(moves[0].op, v) && LegalRun(Step(moves[0].op, v, moves[0].intercepted), moves[1..]))
  }

  /** The invariant holds in every state reachable by any moves, legal or not. */
  lemma {:induction false} RunKeepsInv(v: Snapshot, moves: seq<Move>)
    requires Inv(v)
    ensures Inv(Run(v, moves))
    decreases |moves|
  {
    if moves != [] {
      StepKeepsInv(moves[0].op, v, moves[0].intercepted);
      RunKeepsInv(Step(moves[0].op, v, moves[0].intercepted), moves[1..]);
    }
  }

  /** The three trust thresholds with a one-time bonus turn. */
  datatype Threshold = Trust55 | Trust62 | Trust72

  function BonusUsed(v: Snapshot, t: Threshold): bool
  {
    match t
    case Trust55 => v.turn.bonusTurnUsed55
    case Trust62 => v.turn.bonusTurnUsed62
    case Trust72 => v.turn.bonusTurnUsed72
  }

  /** How many moves of a play grant the bonus turn of threshold t. */
  function BonusGrants(v: Snapshot, moves: seq<Move>, t: Threshold): nat
    decreases |moves|
  {
    if moves == [] then 0
    else
      var next := Step(moves[0].op, v, moves[0].intercepted);
      (if !BonusUsed(v, t) && BonusUsed(next, t) then 1 else 0) + BonusGrants(next, moves[1..], t)
  }

  /** Each bonus turn is granted at most once per game, and never again once used. */
  lemma {:induction false} BonusGrantedAtMostOnce(v: Snapshot, moves: seq<Move>, t: Threshold)
    ensures BonusGrants(v, moves, t) <= (if BonusUsed(v, t) then 0 else 1)
    ensures BonusUsed(v, t) ==> BonusUsed(Run(v, moves), t)
    decreases |moves|
  {
    if moves != [] {
      var next := Step(moves[0].op, v, moves[0].intercepted);
      BonusGrantedAtMostOnce(next, moves[1..], t);
    }
  }

  /** Once the expansion bribe has set the expansion cap, nothing lowers it again, so
      Expand Public Coverage stays illegal for the rest of the game. */
  lemma {:induction false} ExpansionBlockedForever(v: Snapshot, moves: seq<Move>)
    requires v.ledger.publicExpansionCapTurnsLeft > 0
    ensures Run(v, moves).ledger.publicExpansionCapTurnsLeft > 0
    ensures !Legal(ExpandPublicCoverage, Run(v, moves))
    decreases |moves|
  {
    if moves != [] {
      ExpansionBlockedForever(Step(moves[0].op, v, moves[0].intercepted), moves[1..]);
    }
  }

  /** Lobbying resets the lobbying counter and keeps the Insurance Company on the move,
      so it cannot lobby again straight away. */
  lemma LobbyingCannotRepeat(v: Snapshot, intercepted: bool)
    requires Inv(v) && Legal(LobbyGovernment, v)
    ensures Step(LobbyGovernment, v, intercepted).turn.whoseTurn == INSURANCE_COMPANY
    ensures Step(LobbyGovernment, v, intercepted).ledger.lastLobbied == 0
    ensures !Legal(LobbyGovernment, Step(LobbyGovernment, v, intercepted))
  {
  }

  /** An access gap within 6 of the winning line lets a legal Expand Public Coverage
      end the game with the Policy Maker as winner. */
  lemma ExpandCoverageWins(v: Snapshot, intercepted: bool)
    requires Inv(v) && Legal(ExpandPublicCoverage, v) && v.metrics.accessGapIndex < 19
    ensures FindAnyWin(Step(ExpandPublicCoverage, v, intercepted).metrics) == Win(AccessImproved, POLICY_MAKER)
  {
  }
}
