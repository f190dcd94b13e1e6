/** The original single-script pipeline. Most of it duplicates the package's modules; what it
    does differently is modelled here: the three-tier defender assignment, its own rebound
    factor (exact "F"/"C" tests, rounded to three decimals), the cap on the points standard
    deviation before simulating, and a usage multiplier that divides by a fixed four. */
module LegacyModel {
  import opened Common
  import DataProcessor
  import MatchupAnalyzer
  import UsageCalculator
  import MonteCarlo

  /** A player as the impact ranking returns it: id, name, raw position and impact. */
  type Player = MatchupAnalyzer.Scored

  // ---------------------------------------------------------------------------------------
  // The three-tier assignment

  /** The three passes over the opponents: same raw position, same normalised group, any. */
  datatype Tier = Exact | Group | AnyFree

  predicate Fits(tier: Tier, h: Player, o: Player)
  {
    match tier
    case Exact => h.position == o.position
    case Group => DataProcessor.NormalizePosition(h.position) == DataProcessor.NormalizePosition(o.position)
    case AnyFree => true
  }

  /** An opponent the pass may take: it fits the tier and its name is not used yet. */
  predicate Free(tier: Tier, h: Player, o: Player, used: set<string>)
  {
    Fits(tier, h, o) && o.name !in used
  }

  predicate NoneFree(tier: Tier, h: Player, opp: seq<Player>, used: set<string>)
  {
    forall k :: 0 <= k < |opp| ==> !Free(tier, h, opp[k], used)
  }

  /** `j` is the first opponent free for the tier. */
  predicate FirstFree(tier: Tier, h: Player, opp: seq<Player>, used: set<string>, j: nat)
  {
    j < |opp| && Free(tier, h, opp[j], used) && forall k :: 0 <= k < j ==> !Free(tier, h, opp[k], used)
  }

  /** The index one pass stops at, scanning from `j`. */
  function FirstFit(tier: Tier, h: Player, opp: seq<Player>, used: set<string>, j: nat): (r: Option<nat>)
    requires j <= |opp|
    ensures r.Some? ==> j <= r.value < |opp|
    decreases |opp| - j
  {
    if j == |opp| then None
    else if Free(tier, h, opp[j], used) then Some(j)
    else FirstFit(tier, h, opp, used, j + 1)
  }

  lemma {:induction false} FirstFitFrom(tier: Tier, h: Player, opp: seq<Player>, used: set<string>, j: nat)
    requires j <= |opp|
    requires forall k :: 0 <= k < j ==> !Free(tier, h, opp[k], used)
    ensures FirstFit(tier, h, opp, used, j).None? <==> NoneFree(tier, h, opp, used)
    ensures FirstFit(tier, h, opp, used, j).Some? ==> FirstFree(tier, h, opp, used, FirstFit(tier, h, opp, used, j).value)
    decreases |opp| - j
  {
    if j < |opp| && !Free(tier, h, opp[j], used) {
      FirstFitFrom(tier, h, opp, used, j + 1);
    }
  }

  /** A pass takes the first free opponent, and finds none exactly when none is free. */
  lemma FirstFitSpec(tier: Tier, h: Player, opp: seq<Player>, used: set<string>)
    ensures FirstFit(tier, h, opp, used, 0).None? <==> NoneFree(tier, h, opp, used)
    ensures FirstFit(tier, h, opp, used, 0).Some? ==> FirstFree(tier, h, opp, used, FirstFit(tier, h, opp, used, 0).value)
  {
    FirstFitFrom(tier, h, opp, used, 0);
  }

  /** The defender one home player gets: the exact pass, else the group pass, else the
      any-defender pass. */
  function Choice(h: Player, opp: seq<Player>, used: set<string>): (c: Option<nat>)
    ensures c.Some? ==> c.value < |opp|
  {
    var exact := FirstFit(Exact, h, opp, used, 0);
    if exact.Some? then exact
    else
      var group := FirstFit(Group, h, opp, used, 0);
      if group.Some? then group else FirstFit(AnyFree, h, opp, used, 0)
  }

  /** The tiers in priority order: an exact-position match is taken when one is free; a group
      match only when no exact one is; any free opponent only when neither is; nobody only
      when every opponent name is used. Within a tier the earliest free opponent wins. */
  lemma ChoiceSpec(h: Player, opp: seq<Player>, used: set<string>)
    ensures !NoneFree(Exact, h, opp, used) ==>
              Choice(h, opp, used).Some? && FirstFree(Exact, h, opp, used, Choice(h, opp, used).value)
    ensures (NoneFree(Exact, h, opp, used) && !NoneFree(Group, h, opp, used)) ==>
              Choice(h, opp, used).Some? && FirstFree(Group, h, opp, used, Choice(h, opp, used).value)
    ensures (NoneFree(Exact, h, opp, used) && NoneFree(Group, h, opp, used) && !NoneFree(AnyFree, h, opp, used)) ==>
              Choice(h, opp, used).Some? && FirstFree(AnyFree, h, opp, used, Choice(h, opp, used).value)
    ensures Choice(h, opp, used).None? <==> forall k :: 0 <= k < |opp| ==> opp[k].name in used
    ensures Choice(h, opp, used).Some? ==> opp[Choice(h, opp, used).value].name !in used
  {
    FirstFitSpec(Exact, h, opp, used);
    FirstFitSpec(Group, h, opp, used);
    FirstFitSpec(AnyFree, h, opp, used);
    assert NoneFree(AnyFree, h, opp, used) <==> forall k :: 0 <= k < |opp| ==> opp[k].name in used;
  }

  /** The matchup dictionary (a home player may map to no defender) and the used names. */
  datatype Assignment = Assignment(matchups: map<string, Option<string>>, used: set<string>)

  /** One round of the outer loop: the chosen defender guards `h` and is marked used; without
      one, `h` maps to nothing. */
  function Step(st: Assignment, h: Player, opp: seq<Player>): Assignment
  {
    var c := Choice(h, opp, st.used);
    if c.Some? then Assignment(st.matchups[h.name := Some(opp[c.value].name)], st.used + {opp[c.value].name})
    else Assignment(st.matchups[h.name := None], st.used)
  }

  /** The state after the first `n` home players. */
  function AssignUpTo(home: seq<Player>, opp: seq<Player>, n: nat): Assignment
    requires n <= |home|
  {
    if n == 0 then Assignment(map[], {}) else Step(AssignUpTo(home, opp, n - 1), home[n - 1], opp)
  }

  /** One pass of the inner loops: the first opponent free for the tier. */
  method FindFirst(tier: Tier, h: Player, opp: seq<Player>, used: set<string>) returns (j: Option<nat>)
    ensures j == FirstFit(tier, h, opp, used, 0)
  {
    for k := 0 to |opp|
      invariant FirstFit(tier, h, opp, used, 0) == FirstFit(tier, h, opp, used, k)
    {
      if Free(tier, h, opp[k], used) {
        return Some(k);
      }
    }
    j := None;
  }

  /** The assignment loop: each home player, in impact order, tries the three passes in turn. */
  method AssignTiered(homeSorted: seq<Player>, oppSorted: seq<Player>) returns (matchups: map<string, Option<string>>)
    ensures matchups == AssignUpTo(homeSorted, oppSorted, |homeSorted|).matchups
  {
    matchups := map[];
    var used: set<string> := {};
    for i := 0 to |homeSorted|
      invariant Assignment(matchups, used) == AssignUpTo(homeSorted, oppSorted, i)
    {
      var homePlayer := homeSorted[i];
      var pick := FindFirst(Exact, homePlayer, oppSorted, used);
      if pick.None? {
        pick := FindFirst(Group, homePlayer, oppSorted, used);
      }
      if pick.None? {
        pick := FindFirst(AnyFree, homePlayer, oppSorted, used);
      }
      if pick.Some? {
        matchups := matchups[homePlayer.name := Some(oppSorted[pick.value].name)];
        used := used + {oppSorted[pick.value].name};
      } else {
        matchups := matchups[homePlayer.name := None];
      }
    }
  }

  /** Both rosters are ranked by impact as the package ranks them, then assigned. The script
      reads the id of the first entry of each ranked list before the loop, so an empty ranked
      list on either side raises (`None`). */
  method LegacyMatchups(home: seq<MatchupAnalyzer.Candidate>, homeMeans: seq<Option<MatchupAnalyzer.RecentMeans>>,
                        opp: seq<MatchupAnalyzer.Candidate>, oppMeans: seq<Option<MatchupAnalyzer.RecentMeans>>)
    returns (r: Option<map<string, Option<string>>>)
    requires |homeMeans| == |home| && |oppMeans| == |opp|
    ensures var homeSorted := MatchupAnalyzer.SortDesc(MatchupAnalyzer.Collected(home, homeMeans));
            var oppSorted := MatchupAnalyzer.SortDesc(MatchupAnalyzer.Collected(opp, oppMeans));
            (r.None? <==> homeSorted == [] || oppSorted == [])
            && (r.Some? ==> r.value == AssignUpTo(homeSorted, oppSorted, |homeSorted|).matchups)
  {
    var homeSorted := MatchupAnalyzer.GetImpactScores(home, homeMeans);
    var oppSorted := MatchupAnalyzer.GetImpactScores(opp, oppMeans);
    if homeSorted == [] || oppSorted == [] {
      return None;
    }
    var matchups := AssignTiered(homeSorted, oppSorted);
    r := Some(matchups);
  }

  /** What the outer loop keeps true: assigned defenders are marked used, used names are
      opponent names, and no defender guards two home players. */
  predicate Consistent(st: Assignment, opp: seq<Player>)
  {
    (forall k :: k in st.matchups && st.matchups[k].Some? ==> st.matchups[k].value in st.used)
    && st.used <= MatchupAnalyzer.OppNames(opp)
    && (forall k1, k2 :: k1 in st.matchups && k2 in st.matchups && k1 != k2 && st.matchups[k1].Some? ==>
          st.matchups[k1] != st.matchups[k2])
  }

  lemma StepConsistent(st: Assignment, h: Player, opp: seq<Player>)
    requires Consistent(st, opp)
    ensures Consistent(Step(st, h, opp), opp)
  {
    ChoiceSpec(h, opp, st.used);
    var c := Choice(h, opp, st.used);
    if c.Some? {
      assert opp[c.value].name in MatchupAnalyzer.OppNames(opp);
    }
  }

  /** No opponent name is given to two home players. */
  lemma {:induction false} AssignInjective(home: seq<Player>, opp: seq<Player>, n: nat)
    requires n <= |home|
    ensures Consistent(AssignUpTo(home, opp, n), opp)
  {
    if n != 0 {
      AssignInjective(home, opp, n - 1);
      StepConsistent(AssignUpTo(home, opp, n - 1), home[n - 1], opp);
    }
  }

  /** After n rounds at most n names are used. */
  lemma {:induction false} AssignUsedCount(home: seq<Player>, opp: seq<Player>, n: nat)
    requires n <= |home|
    ensures |AssignUpTo(home, opp, n).used| <= n
  {
    if n != 0 {
      AssignUsedCount(home, opp, n - 1);
    }
  }

  function HomeNames(home: seq<Player>, n: nat): set<string>
    requires n <= |home|
  {
    set k | 0 <= k < n :: home[k].name
  }

  /** Every home player gets a key in the dictionary, and nobody else does. */
  lemma {:induction false} AssignKeys(home: seq<Player>, opp: seq<Player>, n: nat)
    requires n <= |home|
    ensures AssignUpTo(home, opp, n).matchups.Keys == HomeNames(home, n)
  {
    if n != 0 {
      AssignKeys(home, opp, n - 1);
      assert HomeNames(home, n) == HomeNames(home, n - 1) + {home[n - 1].name};
    }
  }

  /** A home player is left without a defender exactly when, at that round, every opponent
      name is already used. */
  lemma AssignNoneWhenExhausted(home: seq<Player>, opp: seq<Player>, k: nat)
    requires k < |home|
    ensures AssignUpTo(home, opp, k + 1).matchups[home[k].name].None?
            <==> forall j :: 0 <= j < |opp| ==> opp[j].name in AssignUpTo(home, opp, k).used
  {
    ChoiceSpec(home[k], opp, AssignUpTo(home, opp, k).used);
  }

  lemma SomeNameFree(opp: seq<Player>, used: set<string>)
    requires |used| < |MatchupAnalyzer.OppNames(opp)|
    ensures exists k :: 0 <= k < |opp| && opp[k].name !in used
  {
    var names := MatchupAnalyzer.OppNames(opp);
    assert |names - used| > 0 by {
      assert |names - used| + |names * used| == |names|;
      assert |names * used| <= |used|;
    }
    var d :| d in names - used;
  }

  /** Completeness: while no more home players have been placed than there are distinct
      opponent names, every key maps to a defender. */
  lemma {:induction false} AssignComplete(home: seq<Player>, opp: seq<Player>, n: nat)
    requires n <= |home| && n <= |MatchupAnalyzer.OppNames(opp)|
    ensures forall k :: k in AssignUpTo(home, opp, n).matchups ==> AssignUpTo(home, opp, n).matchups[k].Some?
  {
    if n != 0 {
      var st := AssignUpTo(home, opp, n - 1);
      AssignComplete(home, opp, n - 1);
      AssignUsedCount(home, opp, n - 1);
      SomeNameFree(opp, st.used);
      ChoiceSpec(home[n - 1], opp, st.used);
    }
  }

  // ---------------------------------------------------------------------------------------
  // The script's rebound factor

  /** Only the exact strings "F" and "C" count as bigs here. */
  predicate IsBig(pos: Option<string>)
  {
    pos == Some("F") || pos == Some("C")
  }

  function CountBigs(ps: seq<MatchupAnalyzer.Profile>): (n: nat)
    ensures n <= |ps|
  {
    if ps == [] then 0 else CountBigs(ps[..|ps| - 1]) + (if IsBig(ps[|ps| - 1].1) then 1 else 0)
  }

  /** +0.2 for a player listed exactly as "G" with no big beside her, else +0.1 for one listed
      exactly as "F" with exactly one. */
  function BaseFactor(pos: Option<string>, bigs: nat): (b: real)
    ensures b == 1.0 || b == 1.1 || b == 1.2
    ensures pos != Some("G") && pos != Some("F") ==> b == 1.0
  {
    if pos == Some("G") && bigs == 0 then 1.2
    else if pos == Some("F") && bigs == 1 then 1.1
    else 1.0
  }

  function RawRebFactor(player: MatchupAnalyzer.Profile, ts: seq<MatchupAnalyzer.Profile>, oppHeights: seq<int>): real
    requires ts != []
  {
    var avgTeammateHeight := (MatchupAnalyzer.SumHeights(ts) as real) / (|ts| as real);
    var avgOppHeight :=
      if oppHeights == [] then 72.0 else (MatchupAnalyzer.SumInts(oppHeights) as real) / (|oppHeights| as real);
    BaseFactor(player.1, CountBigs(ts)) + (player.0 as real - avgTeammateHeight) / 24.0
    + (player.0 as real - avgOppHeight) / 36.0
  }

  /** The script's `get_reb_factor` once heights and positions are fetched: no co-players
      makes the teammate average divide by zero (`None`); otherwise the raw factor clamped to
      [0.85, 1.2] and rounded to three decimals. */
  function RebFactor(player: MatchupAnalyzer.Profile, teammates: seq<MatchupAnalyzer.Profile>, oppHeights: seq<int>): (f: Option<real>)
    ensures f.None? <==> teammates == []
  {
    if teammates == [] then None
    else Some(RoundHalfEven(Clamp(RawRebFactor(player, teammates, oppHeights), 0.85, 1.2), 1000))
  }

  /** The result stays in [0.85, 1.2] and within half a thousandth of the clamped value. */
  lemma RebFactorBounds(player: MatchupAnalyzer.Profile, teammates: seq<MatchupAnalyzer.Profile>, oppHeights: seq<int>)
    requires teammates != []
    ensures 0.85 <= RebFactor(player, teammates, oppHeights).value <= 1.2
    ensures -0.0005 <= RebFactor(player, teammates, oppHeights).value
                       - Clamp(RawRebFactor(player, teammates, oppHeights), 0.85, 1.2) <= 0.0005
  {
    var x := Clamp(RawRebFactor(player, teammates, oppHeights), 0.85, 1.2);
    RoundHalfEvenBounds(x, 1000, 850, 1200);
  }

  /** On a level court (everyone the player's height) with no positional bonus the factor is
      exactly 1.0. */
  lemma RebFactorLevelCourt(player: MatchupAnalyzer.Profile, ts: seq<MatchupAnalyzer.Profile>, oppHeights: seq<int>)
    requires ts != []
    requires forall i :: 0 <= i < |ts| ==> ts[i].0 == player.0
    requires forall i :: 0 <= i < |oppHeights| ==> oppHeights[i] == player.0
    requires oppHeights == [] ==> player.0 == 72
    requires BaseFactor(player.1, CountBigs(ts)) == 1.0
    ensures RebFactor(player, ts, oppHeights) == Some(1.0)
  {
    MatchupAnalyzer.SumHeightsConstant(ts, player.0);
    MatchupAnalyzer.SumIntsConstant(oppHeights, player.0);
    MatchupAnalyzer.MeanOfConstant(player.0, |ts|);
    if oppHeights != [] {
      MatchupAnalyzer.MeanOfConstant(player.0, |oppHeights|);
    }
    assert RawRebFactor(player, ts, oppHeights) == 1.0;
    RoundHalfEvenBounds(1.0, 1000, 1000, 1000);
  }

  /** A combined listing such as "C-F" is a big for the package's factor but not for the
      script's. */
  lemma BigTestsDiffer()
    ensures MatchupAnalyzer.IsBig(Some("C-F")) && !IsBig(Some("C-F"))
  {
    assert "C-F"[0] == 'C';
  }

  // ---------------------------------------------------------------------------------------
  // The points-std cap

  /** Before simulating, the points std is capped at 1.5 times the estimated field-goal
      attempts; nothing else in the record changes. */
  function CapPtsStd(p: MatchupAnalyzer.Projection): (q: MatchupAnalyzer.Projection)
    ensures q.ptsStd <= p.estFga * 1.5 && q.ptsStd <= p.ptsStd
    ensures (q.ptsStd == p.ptsStd || q.ptsStd == p.estFga * 1.5)
    ensures p.ptsStd <= p.estFga * 1.5 ==> q == p
    ensures q == p.(ptsStd := q.ptsStd)
  {
    p.(ptsStd := Min(p.ptsStd, p.estFga * 1.5))
  }

  /** A record that could be sampled still can after the cap exactly when its estimated
      attempts are not negative. */
  lemma CapKeepsSamplable(p: MatchupAnalyzer.Projection)
    requires MonteCarlo.Samplable(p)
    ensures MonteCarlo.Samplable(CapPtsStd(p)) <==> p.estFga >= 0.0
  {
  }

  // ---------------------------------------------------------------------------------------
  // The script's usage multiplier

  function SumReals(xs: seq<real>): real
  {
    if xs == [] then 0.0 else SumReals(xs[..|xs| - 1]) + xs[|xs| - 1]
  }

  /** The script's base usage: the same formula as the package's, but 0 for an empty log. */
  function BaseUsage(possessions: real, log: seq<UsageCalculator.LogLine>): (u: real)
    requires log != [] ==> possessions != 0.0
    ensures log == [] ==> u == 0.0
    ensures log != [] ==> u == UsageCalculator.BaseUsage(possessions, log)
  {
    if log == [] then 0.0 else UsageCalculator.BaseUsage(possessions, log)
  }

  /** The script's multiplier: the co-players' usages summed and divided by four whatever their
      number, then the same step table. */
  function Multiplier(usages: seq<real>): real
  {
    UsageCalculator.StepMultiplier(SumReals(usages) / 4.0)
  }

  lemma {:induction false} AllPositiveSums(xs: seq<real>)
    requires forall i :: 0 <= i < |xs| ==> xs[i] > 0.0
    ensures SumPositive(xs) == SumReals(xs) && CountPositive(xs) == |xs|
  {
    if xs != [] {
      AllPositiveSums(xs[..|xs| - 1]);
    }
  }

  /** With exactly four co-players of positive usage the two multipliers agree. */
  lemma MultiplierAgreesOnFour(usages: seq<real>)
    requires |usages| == 4 && forall i :: 0 <= i < 4 ==> usages[i] > 0.0
    ensures Multiplier(usages) == UsageCalculator.MultiplierOf(usages)
  {
    AllPositiveSums(usages);
  }

  /** With a single busy co-player they do not: the script reads 0.3 / 4 off the table (1.12),
      the package reads 0.3 (0.88). */
  lemma MultiplierDiffersOnOne()
    ensures Multiplier([0.3]) == 1.12 && UsageCalculator.MultiplierOf([0.3]) == 0.88
  {
    assert [0.3][..0] == [];
    AllPositiveSums([0.3]);
  }
}
