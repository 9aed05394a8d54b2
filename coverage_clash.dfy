/** Coverage Clash (Healthcare.py) as the program runs it: a mutable `State` object,
    copied by every operator and then updated field by field, followed by the turn
    scheduler. Each method is proved to compute exactly the rules of module
    CoverageRules, so every property proved there holds of the objects here. */
module CoverageClash {
  import R = CoverageRules
  import opened Arith

  /** The game state. Its attributes are held in three records (the metrics, the
      scheduling fields and the ledger of caps, menus and counters) plus the result;
      an attribute assignment of the game updates one field of one record in place. */
  class State {
    var metrics: R.Metrics
    var turn: R.Turn
    var ledger: R.Ledger
    var win: R.Ending
    var winner: int

    /** The value this object currently holds. */
    function View(): R.Snapshot
      reads this
    {
      R.Snapshot(metrics, turn, ledger, win, winner)
    }

    /** The initial state: the Policy Maker to move, nothing decided. */
    constructor ()
      ensures View() == R.Initial()
    {
      turn := R.Turn(R.POLICY_MAKER, R.POLICY_MAKER, R.NAMES[R.POLICY_MAKER], false, false, false);
      metrics := R.Metrics(133, 60, 30, 65, 50, 70, 70);
      ledger := R.Ledger(0, false, false, 0, 0, 0, 0);
      win := R.Unset;
      winner := -1;
    }

    /** A copy of `prev`, which the operator that asked for it then mutates. */
    constructor Copy(prev: State)
      ensures View() == prev.View()
    {
      metrics := prev.metrics;
      turn := prev.turn;
      ledger := prev.ledger;
      win := prev.win;
      winner := prev.winner;
    }

    /** `check_for_win`: runs the goal check and records a result in `win`/`winner`. */
    method CheckForWin() returns (any: R.Outcome)
      modifies this
      ensures any == R.FindAnyWin(old(View()).metrics)
      ensures View() == R.CheckForWin(old(View()))
    {
      any := R.FindAnyWin(View().metrics);
      if any.Win? {
        win, winner := any.ending, any.winner;
      }
    }

    /** `is_goal`: whether a terminal condition holds, recording it as `check_for_win` does. */
    method IsGoal() returns (goal: bool)
      modifies this
      ensures goal <==> R.FindAnyWin(old(View()).metrics).Win?
      ensures goal ==> win != R.Unset
      ensures View() == R.CheckForWin(old(View()))
    {
      var any := CheckForWin();
      goal := any.Win?;
    }
  }

  /** `update_turn`, applied in place to the freshly copied state. */
  method UpdateTurn(news: State)
    modifies news
    ensures news.View() == R.UpdateTurn(old(news.View()))
  {
    if news.ledger.skipNextTurn {
      news.ledger := news.ledger.(skipNextTurn := false);
      return;
    }
    if news.turn.whoseTurn == R.POLICY_MAKER {
      if news.metrics.publicTrustMeter >= 72 && !news.turn.bonusTurnUsed72 {
        news.turn := news.turn.(bonusTurnUsed72 := true);
        return;
      } else if news.metrics.publicTrustMeter >= 62 && !news.turn.bonusTurnUsed62 {
        news.turn := news.turn.(bonusTurnUsed62 := true);
        return;
      } else if news.metrics.publicTrustMeter >= 55 && !news.turn.bonusTurnUsed55 {
        news.turn := news.turn.(bonusTurnUsed55 := true);
        return;
      }
    }
    var current := news.turn.whoseTurn;
    var updated := R.NextPlayer(current);
    news.turn := news.turn.(whoseTurn := updated, currentRoleNum := updated, currentRole := R.NAMES[updated]);
    if news.ledger.premiumCapTurnsLeft > 0 && news.turn.whoseTurn == R.POLICY_MAKER {
      news.ledger := news.ledger.(premiumCapTurnsLeft := news.ledger.premiumCapTurnsLeft - 1);
    }
  }

  // ---------------------------------------------------------------------------
  // Policy Maker operators

  method ExpandPublicCoverage(s: State) returns (ns: State)
    ensures fresh(ns) && ns.View() == R.Step(R.ExpandPublicCoverage, s.View(), false)
  {
    ns := new State.Copy(s);
    ns.metrics := ns.metrics.(accessGapIndex := Clamp(s.metrics.accessGapIndex - 6, 0, 100));
    ns.metrics := ns.metrics.(publicTrustMeter := Clamp(s.metrics.publicTrustMeter + 3, 0, 100));
    ns.metrics := ns.metrics.(uninsuredRate := Clamp(s.metrics.uninsuredRate - 5, 0, 1000));
    ns.metrics := ns.metrics.(profit := Clamp(s.metrics.profit - 5, 0, 200));
    ns.metrics := ns.metrics.(publicHealthIndex := Clamp(s.metrics.publicHealthIndex + 5, 0, 100));
    ns.metrics := ns.metrics.(budget := Clamp(s.metrics.budget - 17, 0, 200));
    assert ns.View() == R.Effect(R.ExpandPublicCoverage, s.View(), false);
    UpdateTurn(ns);
  }

  method SubsidizeCoverage(s: State) returns (ns: State)
    ensures fresh(ns) && ns.View() == R.Step(R.SubsidizeCoverage, s.View(), false)
  {
    ns := new State.Copy(s);
    ns.metrics := ns.metrics.(accessGapIndex := Clamp(s.metrics.accessGapIndex - 3, 0, 100));
    ns.metrics := ns.metrics.(publicTrustMeter := Clamp(s.metrics.publicTrustMeter + 2, 0, 100));
    ns.metrics := ns.metrics.(uninsuredRate := Clamp(s.metrics.uninsuredRate - 3, 0, 1000));
    ns.metrics := ns.metrics.(profit := Clamp(s.metrics.profit - 3, 0, 200));
    ns.metrics := ns.metrics.(publicHealthIndex := Clamp(s.metrics.publicHealthIndex + 4, 0, 100));
    ns.metrics := ns.metrics.(budget := Clamp(s.metrics.budget - 11, 0, 200));
    assert ns.View() == R.Effect(R.SubsidizeCoverage, s.View(), false);
    UpdateTurn(ns);
  }

  /** `request_funds`; `intercepted` is the outcome of the 30% interception draw. */
  method RequestFunds(s: State, intercepted: bool) returns (ns: State)
    ensures fresh(ns) && ns.View() == R.Step(R.RequestFunds, s.View(), intercepted)
  {
    ns := new State.Copy(s);
    ns.ledger := ns.ledger.(funded := ns.ledger.funded + 1);
    if intercepted {
      ns.ledger := ns.ledger.(intercepted := ns.ledger.intercepted + 1);
      ns.ledger := ns.ledger.(bribeChoiceActive := true);
    } else {
      ns.metrics := ns.metrics.(budget := Clamp(s.metrics.budget + 25, 0, 200));
    }
    assert ns.View() == R.Effect(R.RequestFunds, s.View(), intercepted);
    UpdateTurn(ns);
  }

  method CapPremiums(s: State) returns (ns: State)
    ensures fresh(ns) && ns.View() == R.Step(R.CapPremiums, s.View(), false)
  {
    ns := new State.Copy(s);
    ns.metrics := ns.metrics.(accessGapIndex := Clamp(s.metrics.accessGapIndex - 2, 0, 100));
    ns.metrics := ns.metrics.(publicTrustMeter := Clamp(s.metrics.publicTrustMeter + 5, 0, 100));
    ns.metrics := ns.metrics.(influenceMeter := Clamp(s.metrics.influenceMeter - 8, 0, 100));
    ns.metrics := ns.metrics.(uninsuredRate := Clamp(s.metrics.uninsuredRate - 2, 0, 1000));
    ns.ledger := ns.ledger.(premiumCapTurnsLeft := 3);
    ns.metrics := ns.metrics.(budget := Clamp(s.metrics.budget - 11, 0, 200));
    assert ns.View() == R.Effect(R.CapPremiums, s.View(), false);
    UpdateTurn(ns);
  }

  method MandateCoverage(s: State) returns (ns: State)
    ensures fresh(ns) && ns.View() == R.Step(R.MandateCoverage, s.View(), false)
  {
    ns := new State.Copy(s);
    ns.metrics := ns.metrics.(accessGapIndex := Clamp(s.metrics.accessGapIndex - 4, 0, 100));
    ns.metrics := ns.metrics.(publicTrustMeter := Clamp(s.metrics.publicTrustMeter - 2, 0, 100));
    ns.metrics := ns.metrics.(uninsuredRate := Clamp(s.metrics.uninsuredRate - 10, 0, 1000));
    ns.metrics := ns.metrics.(publicHealthIndex := Clamp(s.metrics.publicHealthIndex + 3, 0, 100));
    ns.metrics := ns.metrics.(budget := Clamp(s.metrics.budget - 7, 0, 200));
    assert ns.View() == R.Effect(R.MandateCoverage, s.View(), false);
    UpdateTurn(ns);
  }

  method InvestInClinics(s: State) returns (ns: State)
    ensures fresh(ns) && ns.View() == R.Step(R.InvestInClinics, s.View(), false)
  {
    ns := new State.Copy(s);
    ns.metrics := ns.metrics.(accessGapIndex := Clamp(s.metrics.accessGapIndex - 3, 0, 100));
    ns.metrics := ns.metrics.(publicHealthIndex := Clamp(s.metrics.publicHealthIndex + 6, 0, 100));
    ns.metrics := ns.metrics.(uninsuredRate := Clamp(s.metrics.uninsuredRate - 4, 0, 1000));
    ns.metrics := ns.metrics.(publicTrustMeter := Clamp(s.metrics.publicTrustMeter + 4, 0, 100));
    ns.metrics := ns.metrics.(budget := Clamp(s.metrics.budget - 15, 0, 200));
    assert ns.View() == R.Effect(R.InvestInClinics, s.View(), false);
    UpdateTurn(ns);
  }

  // ---------------------------------------------------------------------------
  // Insurance Company operators

  method RaisePremiums(s: State) returns (ns: State)
    ensures fresh(ns) && ns.View() == R.Step(R.RaisePremiums, s.View(), false)
  {
    ns := new State.Copy(s);
    ns.metrics := ns.metrics.(profit := Clamp(s.metrics.profit + 6, 0, 200));
    ns.metrics := ns.metrics.(accessGapIndex := Clamp(s.metrics.accessGapIndex + 3, 0, 100));
    ns.metrics := ns.metrics.(uninsuredRate := Clamp(s.metrics.uninsuredRate + 8, 0, 1000));
    ns.metrics := ns.metrics.(publicHealthIndex := Clamp(s.metrics.publicHealthIndex - 2, 0, 100));
    ns.metrics := ns.metrics.(influenceMeter := Clamp(s.metrics.influenceMeter - 2, 0, 100));
    ns.ledger := ns.ledger.(lastLobbied := ns.ledger.lastLobbied + 1);
    assert ns.View() == R.Effect(R.RaisePremiums, s.View(), false);
    UpdateTurn(ns);
  }

  method RiskSelection(s: State) returns (ns: State)
    ensures fresh(ns) && ns.View() == R.Step(R.RiskSelection, s.View(), false)
  {
    ns := new State.Copy(s);
    ns.metrics := ns.metrics.(accessGapIndex := Clamp(s.metrics.accessGapIndex + 6, 0, 100));
    ns.metrics := ns.metrics.(influenceMeter := Clamp(s.metrics.influenceMeter - 4, 0, 100));
    ns.metrics := ns.metrics.(uninsuredRate := Clamp(s.metrics.uninsuredRate + 6, 0, 1000));
    ns.metrics := ns.metrics.(profit := Clamp(s.metrics.profit + 5, 0, 200));
    ns.metrics := ns.metrics.(publicHealthIndex := Clamp(s.metrics.publicHealthIndex - 4, 0, 100));
    ns.ledger := ns.ledger.(lastLobbied := ns.ledger.lastLobbied + 1);
    assert ns.View() == R.Effect(R.RiskSelection, s.View(), false);
    UpdateTurn(ns);
  }

  method NarrowProviderNetwork(s: State) returns (ns: State)
    ensures fresh(ns) && ns.View() == R.Step(R.NarrowProviderNetwork, s.View(), false)
  {
    ns := new State.Copy(s);
    ns.metrics := ns.metrics.(accessGapIndex := Clamp(s.metrics.accessGapIndex + 5, 0, 100));
    ns.metrics := ns.metrics.(influenceMeter := Clamp(s.metrics.influenceMeter - 3, 0, 100));
    ns.metrics := ns.metrics.(uninsuredRate := Clamp(s.metrics.uninsuredRate + 8, 0, 1000));
    ns.metrics := ns.metrics.(profit := Clamp(s.metrics.profit + 3, 0, 200));
    ns.metrics := ns.metrics.(publicHealthIndex := Clamp(s.metrics.publicHealthIndex - 4, 0, 100));
    ns.ledger := ns.ledger.(lastLobbied := ns.ledger.lastLobbied + 1);
    assert ns.View() == R.Effect(R.NarrowProviderNetwork, s.View(), false);
    UpdateTurn(ns);
  }

  method LobbyGovernment(s: State) returns (ns: State)
    ensures fresh(ns) && ns.View() == R.Step(R.LobbyGovernment, s.View(), false)
  {
    ns := new State.Copy(s);
    ns.metrics := ns.metrics.(accessGapIndex := Clamp(s.metrics.accessGapIndex + 3, 0, 100));
    ns.metrics := ns.metrics.(uninsuredRate := Clamp(s.metrics.uninsuredRate + 6, 0, 1000));
    ns.metrics := ns.metrics.(publicHealthIndex := Clamp(s.metrics.publicHealthIndex - 4, 0, 100));
    ns.metrics := ns.metrics.(publicTrustMeter := Clamp(s.metrics.publicTrustMeter - 5, 0, 100));
    ns.metrics := ns.metrics.(influenceMeter := Clamp(s.metrics.influenceMeter + 5, 0, 100));
    ns.ledger := ns.ledger.(skipNextTurn := true);
    ns.ledger := ns.ledger.(lastLobbied := 0);
    assert ns.View() == R.Effect(R.LobbyGovernment, s.View(), false);
    UpdateTurn(ns);
  }

  method MisinformationCampaigns(s: State) returns (ns: State)
    ensures fresh(ns) && ns.View() == R.Step(R.MisinformationCampaigns, s.View(), false)
  {
    ns := new State.Copy(s);
    ns.metrics := ns.metrics.(accessGapIndex := Clamp(s.metrics.accessGapIndex + 3, 0, 100));
    ns.metrics := ns.metrics.(influenceMeter := Clamp(s.metrics.influenceMeter + 8, 0, 100));
    ns.metrics := ns.metrics.(uninsuredRate := Clamp(s.metrics.uninsuredRate + 3, 0, 1000));
    ns.metrics := ns.metrics.(profit := Clamp(s.metrics.profit - 3, 0, 200));
    ns.metrics := ns.metrics.(publicTrustMeter := Clamp(s.metrics.publicTrustMeter - 3, 0, 100));
    ns.ledger := ns.ledger.(lastLobbied := ns.ledger.lastLobbied + 1);
    assert ns.View() == R.Effect(R.MisinformationCampaigns, s.View(), false);
    UpdateTurn(ns);
  }

  method PreventExpansion(s: State) returns (ns: State)
    ensures fresh(ns) && ns.View() == R.Step(R.PreventExpansion, s.View(), false)
  {
    ns := new State.Copy(s);
    ns.ledger := ns.ledger.(publicExpansionCapTurnsLeft := 2);
    ns.metrics := ns.metrics.(profit := Clamp(s.metrics.profit + 10, 0, 200));
    ns.metrics := ns.metrics.(influenceMeter := Clamp(s.metrics.influenceMeter + 8, 0, 100));
    ns.ledger := ns.ledger.(bribeChoiceActive := false);
    ns.ledger := ns.ledger.(skipNextTurn := true);
    assert ns.View() == R.Effect(R.PreventExpansion, s.View(), false);
    UpdateTurn(ns);
  }

  method FundMisinformationWithBribe(s: State) returns (ns: State)
    ensures fresh(ns) && ns.View() == R.Step(R.FundMisinformationWithBribe, s.View(), false)
  {
    ns := new State.Copy(s);
    ns.metrics := ns.metrics.(publicTrustMeter := Clamp(s.metrics.publicTrustMeter - 9, 0, 100));
    ns.metrics := ns.metrics.(profit := Clamp(s.metrics.profit + 10, 0, 200));
    ns.metrics := ns.metrics.(influenceMeter := Clamp(s.metrics.influenceMeter + 8, 0, 100));
    ns.ledger := ns.ledger.(bribeChoiceActive := false);
    ns.ledger := ns.ledger.(skipNextTurn := true);
    assert ns.View() == R.Effect(R.FundMisinformationWithBribe, s.View(), false);
    UpdateTurn(ns);
  }

  /** `turn_pass`, the Pass entry of both roles. */
  method TurnPass(s: State) returns (ns: State)
    ensures fresh(ns) && ns.View() == R.Step(R.PolicyMakerPass, s.View(), false)
  {
    ns := new State.Copy(s);
    if ns.turn.whoseTurn == R.POLICY_MAKER {
      ns.metrics := ns.metrics.(publicTrustMeter := Clamp(s.metrics.publicTrustMeter - 5, 0, 100));
      if ns.metrics.accessGapIndex >= 30 {
        ns.metrics := ns.metrics.(accessGapIndex := Clamp(s.metrics.accessGapIndex + 1, 0, 100));
      }
      if ns.metrics.influenceMeter >= 80 {
        ns.metrics := ns.metrics.(accessGapIndex := Clamp(s.metrics.accessGapIndex + 2, 0, 100));
      }
    }
    if ns.turn.whoseTurn == R.INSURANCE_COMPANY {
      ns.metrics := ns.metrics.(influenceMeter := Clamp(s.metrics.influenceMeter - 5, 0, 100));
      if ns.metrics.influenceMeter <= 65 {
        ns.metrics := ns.metrics.(profit := Clamp(s.metrics.profit - 2, 0, 100));
      }
    }
    assert ns.metrics == R.TurnPass(s.turn.whoseTurn, s.metrics);
    assert ns.View() == R.Effect(R.PolicyMakerPass, s.View(), false);
    UpdateTurn(ns);
  }

  /** Applies the catalog entry for `op`, as the game loop does once it has checked
      the entry's precondition. */
  method Apply(op: R.Op, s: State, intercepted: bool) returns (ns: State)
    ensures fresh(ns) && ns.View() == R.Step(op, s.View(), intercepted)
  {
    if op != R.RequestFunds {
      R.CoinOnlyMattersToRequestFunds(op, s.View(), intercepted);
    }
    R.PassEntriesAgree(s.View(), false);
    match op
    case ExpandPublicCoverage => ns := ExpandPublicCoverage(s);
    case SubsidizeCoverage => ns := SubsidizeCoverage(s);
    case RequestFunds => ns := RequestFunds(s, intercepted);
    case CapPremiums => ns := CapPremiums(s);
    case MandateCoverage => ns := MandateCoverage(s);
    case InvestInClinics => ns := InvestInClinics(s);
    case PolicyMakerPass => ns := TurnPass(s);
    case RaisePremiums => ns := RaisePremiums(s);
    case RiskSelection => ns := RiskSelection(s);
    case NarrowProviderNetwork => ns := NarrowProviderNetwork(s);
    case LobbyGovernment => ns := LobbyGovernment(s);
    case MisinformationCampaigns => ns := MisinformationCampaigns(s);
    case PreventExpansion => ns := PreventExpansion(s);
    case FundMisinformationWithBribe => ns := FundMisinformationWithBribe(s);
    case InsurerPass => ns := TurnPass(s);
  }
}
