/** Two judges of one live trade history: the governance advisor's `live_action`
    (tools/build_governance_advisor.py) and the promotion gate's decision on a live route
    (tools/build_version_promotion_gate.py).  Money is exact. */
module LiveDecisions {
  import opened Sequences
  import opened Blockers

  datatype Live = Live(closed: nat, wins: nat, losses: nat, net: real, winRate: Option<real>,
                       profitFactor: Option<real>, consecutiveLosses: nat)

  function Sum(s: seq<real>): real {
    if s == [] then 0.0 else s[0] + Sum(s[1..])
  }

  function Wins(profits: seq<real>): seq<real> {
    Filter((p: real) => p > 0.0, profits)
  }

  function Losses(profits: seq<real>): seq<real> {
    Filter((p: real) => p < 0.0, profits)
  }

  function ProfitFactor(wins: real, losses: real): Option<real> {
    if losses < 0.0 then Some(if wins > 0.0 then wins / -losses else 0.0) else None
  }

  function Percent(part: nat, total: nat): Option<real> {
    if total == 0 then None else Some(part as real / total as real * 100.0)
  }

  /** Length of the longest run of losses at the end. */
  function LosingStreak(profits: seq<real>): nat {
    if profits == [] || profits[|profits| - 1] >= 0.0 then 0 else 1 + LosingStreak(profits[..|profits| - 1])
  }

  function Summary(profits: seq<real>): Live {
    Live(|profits|, |Wins(profits)|, |Losses(profits)|, Sum(profits), Percent(|Wins(profits)|, |profits|),
         ProfitFactor(Sum(Wins(profits)), Sum(Losses(profits))), LosingStreak(profits))
  }

  /** `summarize_profit_rows`, on the profits in time order. */
  method SummarizeProfits(profits: seq<real>) returns (live: Live)
    ensures live == Summary(profits)
  {
    var wins, losses := Wins(profits), Losses(profits);
    var consecutive := 0;
    hide Filter;
    var i := |profits|;
    assert profits[..i] == profits;
    while i > 0
      invariant 0 <= i <= |profits|
      invariant LosingStreak(profits) == consecutive + LosingStreak(profits[..i])
    {
      assert profits[..i][..i - 1] == profits[..i - 1];
      if profits[i - 1] < 0.0 {
        consecutive := consecutive + 1;
      } else {
        break;
      }
      i := i - 1;
    }
    live := Live(|profits|, |wins|, |losses|, Sum(profits), Percent(|wins|, |profits|),
                 ProfitFactor(Sum(wins), Sum(losses)), consecutive);
  }

  lemma {:induction false} StreakIsLongestLosingSuffix(profits: seq<real>, n: nat)
    requires n <= |profits|
    ensures (forall i :: |profits| - n <= i < |profits| ==> profits[i] < 0.0) <==> n <= LosingStreak(profits)
  {
    if profits != [] && n > 0 {
      var front := profits[..|profits| - 1];
      StreakIsLongestLosingSuffix(front, n - 1);
      assert forall i :: 0 <= i < |front| ==> front[i] == profits[i];
      if profits[|profits| - 1] < 0.0 {
        assert (forall i :: |profits| - n <= i < |profits| ==> profits[i] < 0.0)
          <==> forall i :: |front| - (n - 1) <= i < |front| ==> front[i] < 0.0;
      }
    }
  }

  /** The wins are the positive profits and the losses the negative ones, each counted once. */
  lemma {:induction false} SummaryMeans(profits: seq<real>)
    ensures var live := Summary(profits);
      && live.closed == |profits|
      && live.wins == |set i | 0 <= i < |profits| && profits[i] > 0.0|
      && live.losses == |set i | 0 <= i < |profits| && profits[i] < 0.0|
      && (live.winRate.None? <==> profits == [])
      && (live.winRate.Some? ==> live.winRate.value * live.closed as real == 100.0 * live.wins as real)
  {
    hide Filter, Sum, ProfitFactor, LosingStreak;
    CountWins(profits);
    CountLosses(profits);
  }

  lemma {:induction false} CountWins(profits: seq<real>)
    ensures |Wins(profits)| == |set i | 0 <= i < |profits| && profits[i] > 0.0|
  {
    hide Filter;
    var won := (p: real) => p > 0.0;
    CountByIndex(won, profits);
    assert Indices(won, profits) == set i | 0 <= i < |profits| && profits[i] > 0.0;
  }

  lemma {:induction false} CountLosses(profits: seq<real>)
    ensures |Losses(profits)| == |set i | 0 <= i < |profits| && profits[i] < 0.0|
  {
    hide Filter;
    var lost := (p: real) => p < 0.0;
    CountByIndex(lost, profits);
    assert Indices(lost, profits) == set i | 0 <= i < |profits| && profits[i] < 0.0;
  }

  function Indices(f: real -> bool, s: seq<real>): set<int> {
    set i | 0 <= i < |s| && f(s[i])
  }

  lemma {:induction false} LastIndex(f: real -> bool, s: seq<real>)
    requires s != []
    ensures var n := |s| - 1;
      n !in Indices(f, s[..n]) && Indices(f, s) == Indices(f, s[..n]) + if f(s[n]) then {n} else {}
  {
    var n := |s| - 1;
    assert forall i :: 0 <= i < n ==> s[..n][i] == s[i];
  }

  lemma {:induction false} CountByIndex(f: real -> bool, s: seq<real>)
    ensures |Filter(f, s)| == |Indices(f, s)|
  {
    hide Filter;
    if s == [] {
      FilterNone(f, s);
      assert Indices(f, s) == {};
    } else {
      hide Indices;
      var n := |s| - 1;
      CountByIndex(f, s[..n]);
      assert s == s[..n] + [s[n]];
      FilterAppend(f, s[..n], s[n]);
      LastIndex(f, s);
    }
  }

  /** Net is what the profits come to, in any split. */
  lemma {:induction false} NetAddsUp(a: seq<real>, b: seq<real>, p: real)
    ensures Summary(a + b).net == Summary(a).net + Summary(b).net && Summary([p]).net == p && Summary([]).net == 0.0
  {
    hide Wins, Losses, LosingStreak;
    if a == [] {
      assert a + b == b;
    } else {
      assert (a + b)[1..] == a[1..] + b;
      NetAddsUp(a[1..], b, p);
    }
    assert [p][1..] == [];
  }

  lemma {:induction false} NetIsWinsPlusLosses(profits: seq<real>)
    ensures Sum(profits) == Sum(Wins(profits)) + Sum(Losses(profits))
    ensures Sum(Wins(profits)) >= 0.0 >= Sum(Losses(profits))
    ensures Sum(Losses(profits)) < 0.0 <==> Losses(profits) != []
  {
    if profits != [] {
      NetIsWinsPlusLosses(profits[1..]);
      var p := profits[0];
      var w, l := Wins(profits[1..]), Losses(profits[1..]);
      assert p > 0.0 ==> ([p] + w)[1..] == w;
      assert p < 0.0 ==> ([p] + l)[1..] == l;
      assert [] + w == w && [] + l == l;
    }
  }

  /** Over real trades, a negative net and a profit factor below one are the same thing, and the
      factor is undefined only without a loss. */
  lemma {:induction false} NegativeNetIsFactorBelowOne(profits: seq<real>)
    ensures var live := Summary(profits);
      && (live.profitFactor.None? <==> live.losses == 0)
      && (live.net < 0.0 <==> live.profitFactor.Some? && live.profitFactor.value < 1.0)
  {
    NetIsWinsPlusLosses(profits);
    var w, l := Sum(Wins(profits)), Sum(Losses(profits));
    if l < 0.0 {
      RatioBelowOne(w, -l);
    }
  }

  lemma RatioBelowOne(a: real, b: real)
    requires b > 0.0
    ensures a / b < 1.0 <==> a < b
  {
    assert a == a / b * b;
  }

  // ---------------------------------------------------------------- the advisor

  datatype Action = DemoteReview | KeepLiveWatch | KeepLive

  predicate Below(x: Option<real>, bound: real) {
    x.Some? && x.value < bound
  }

  function LiveBlockers(live: Live, floating: real): seq<string> {
    Block(live.closed < 3, "live_forward_sample_lt_3")
    + Block(live.consecutiveLosses >= 2, "consecutive_losses_ge_2")
    + Block(live.closed >= 3 && Below(live.profitFactor, 1.0), "profit_factor_lt_1")
    + Block(live.closed >= 3 && Below(live.winRate, 45.0), "win_rate_lt_45")
    + Block(floating <= -0.5, "open_position_drawdown_watch")
  }

  /** `live_action`; `floating` is the open positions' profit. */
  function LiveAction(live: Live, floating: real): Action {
    if live.consecutiveLosses >= 2 || (live.closed >= 3 && live.net < 0.0 && Below(live.profitFactor, 1.0))
    then DemoteReview
    else if LiveBlockers(live, floating) != [] then KeepLiveWatch
    else KeepLive
  }

  // ---------------------------------------------------------------- the gate

  const LIVE_MIN_CLOSED_TRADES := 3

  datatype Decision = DemoteLive | WaitForward | KeepLiveRoute

  /** `current_route_decision` on a route that is live. */
  function LiveRouteDecision(live: Live): Decision {
    if live.closed >= LIVE_MIN_CLOSED_TRADES && live.consecutiveLosses >= 2 then DemoteLive
    else if live.closed >= LIVE_MIN_CLOSED_TRADES && Below(live.profitFactor, 1.0) && live.net < 0.0 then DemoteLive
    else if live.closed < LIVE_MIN_CLOSED_TRADES then WaitForward
    else KeepLiveRoute
  }

  // ---------------------------------------------------------------- main results

  /** The judges agree on demotion: the gate demotes exactly when the advisor asks for a demotion
      review and at least three trades have closed. */
  lemma {:induction false} DemotionsAgree(profits: seq<real>, floating: real)
    ensures var live := Summary(profits);
      LiveRouteDecision(live).DemoteLive? <==> LiveAction(live, floating).DemoteReview? && |profits| >= 3
  {
  }

  predicate LastTwoLost(profits: seq<real>) {
    |profits| >= 2 && profits[|profits| - 1] < 0.0 && profits[|profits| - 2] < 0.0
  }

  /** Demotion, read off the trades: the advisor asks for a review when the last two lost, or three or
      more together lost money; the gate demotes on the same grounds, but never on fewer than
      three trades. */
  lemma {:induction false} DemotionMeans(profits: seq<real>, floating: real)
    ensures LiveAction(Summary(profits), floating).DemoteReview? <==>
      LastTwoLost(profits) || (|profits| >= 3 && Sum(profits) < 0.0)
    ensures LiveRouteDecision(Summary(profits)).DemoteLive? <==>
      |profits| >= 3 && (LastTwoLost(profits) || Sum(profits) < 0.0)
  {
    hide Sum, Wins, Losses, Percent, ProfitFactor, LosingStreak;
    NegativeNetIsFactorBelowOne(profits);
    DemotionsAgree(profits, floating);
    StreakOfTwo(profits);
  }

  lemma StreakIsShort(profits: seq<real>)
    ensures LosingStreak(profits) <= |profits|
  {
  }

  lemma {:induction false} BlockersByField(live: Live, floating: real)
    ensures var blockers := LiveBlockers(live, floating);
      && ("live_forward_sample_lt_3" in blockers <==> live.closed < 3)
      && ("consecutive_losses_ge_2" in blockers <==> live.consecutiveLosses >= 2)
      && ("profit_factor_lt_1" in blockers <==> live.closed >= 3 && Below(live.profitFactor, 1.0))
      && ("win_rate_lt_45" in blockers <==> live.closed >= 3 && Below(live.winRate, 45.0))
      && ("open_position_drawdown_watch" in blockers <==> floating <= -0.5)
  {
    hide Below;
    var a := Block(live.closed < 3, "live_forward_sample_lt_3");
    var b := Block(live.consecutiveLosses >= 2, "consecutive_losses_ge_2");
    var c := Block(live.closed >= 3 && Below(live.profitFactor, 1.0), "profit_factor_lt_1");
    var d := Block(live.closed >= 3 && Below(live.winRate, 45.0), "win_rate_lt_45");
    var e := Block(floating <= -0.5, "open_position_drawdown_watch");
    assert forall x :: x in LiveBlockers(live, floating) <==> x in a || x in b || x in c || x in d || x in e;
  }

  lemma RateBelow(rate: real, part: real, whole: real)
    requires whole > 0.0 && rate * whole == 100.0 * part
    ensures rate < 45.0 <==> 100.0 * part < 45.0 * whole
  {
    if rate < 45.0 {
      assert rate * whole < 45.0 * whole;
    } else {
      assert rate * whole >= 45.0 * whole;
    }
  }

  lemma {:induction false} StreakOfTwo(profits: seq<real>)
    ensures LosingStreak(profits) >= 2 <==> LastTwoLost(profits)
  {
    hide LosingStreak;
    StreakIsShort(profits);
    if |profits| >= 2 {
      StreakIsLongestLosingSuffix(profits, 2);
      assert LastTwoLost(profits) <==> forall i :: |profits| - 2 <= i < |profits| ==> profits[i] < 0.0;
    }
  }

  lemma {:induction false} RateBelow45(profits: seq<real>)
    requires profits != []
    ensures var live := Summary(profits);
      Below(live.winRate, 45.0) <==> 100.0 * (live.wins as real) < 45.0 * (|profits| as real)
  {
    hide Sum, Wins, Losses, ProfitFactor, LosingStreak, Percent;
    SummaryMeans(profits);
    var live := Summary(profits);
    RateBelow(live.winRate.value, live.wins as real, |profits| as real);
  }

  /** The advisor's blockers, read off the trades. */
  lemma {:induction false} BlockersMean(profits: seq<real>, floating: real)
    ensures var blockers, n := LiveBlockers(Summary(profits), floating), |profits|;
      && ("live_forward_sample_lt_3" in blockers <==> n < 3)
      && ("consecutive_losses_ge_2" in blockers <==> LastTwoLost(profits))
      && ("profit_factor_lt_1" in blockers <==> n >= 3 && Sum(profits) < 0.0)
      && ("win_rate_lt_45" in blockers <==> n >= 3 && 100.0 * (Summary(profits).wins as real) < 45.0 * (n as real))
      && ("open_position_drawdown_watch" in blockers <==> floating <= -0.5)
  {
    hide Sum, Wins, Losses, ProfitFactor, LosingStreak, LiveBlockers, Percent, LastTwoLost;
    BlockersByField(Summary(profits), floating);
    NegativeNetIsFactorBelowOne(profits);
    StreakOfTwo(profits);
    if |profits| >= 3 {
      RateBelow45(profits);
    }
  }

  /** The advisor keeps a route exactly when the gate does, at least 45 percent of the trades won
      and open positions are less than half a unit down. */
  lemma {:induction false} KeepingAgrees(profits: seq<real>, floating: real)
    ensures var live := Summary(profits);
      LiveAction(live, floating).KeepLive? <==>
      LiveRouteDecision(live).KeepLiveRoute? && live.wins as real / live.closed as real * 100.0 >= 45.0 && floating > -0.5
  {
    NegativeNetIsFactorBelowOne(profits);
  }
}
