/** The matchup analyzer: impact scores and their ordering, the score-based greedy pairing of
    home players with defenders, the eFG, assist and rebound factors, and the per-segment
    projection of points, rebounds and assists against the assigned defender. */
module MatchupAnalyzer {
  import opened Common
  import ApiClient

  // ---------------------------------------------------------------------------------------
  // Impact scores

  /** One entry of the player dictionary: id, name and (possibly missing) position. */
  datatype Candidate = Candidate(id: int, name: string, position: Option<string>)

  /** Means of PTS, AST and REB over a player's ten most recent games. */
  datatype RecentMeans = RecentMeans(pts: real, ast: real, reb: real)

  /** An entry of the impact list. */
  datatype Scored = Scored(id: int, name: string, position: Option<string>, impact: real)

  /** The impact of a player: points plus 0.7 of assists and rebounds. */
  function Impact(m: RecentMeans): real
  {
    m.pts + 0.7 * m.ast + 0.7 * m.reb
  }

  /** The impact list before sorting: one entry per player whose game log could be read
      (`means[i]` is `None` where fetching player i's log failed), in dictionary order. */
  function Collected(players: seq<Candidate>, means: seq<Option<RecentMeans>>): (r: seq<Scored>)
    requires |means| == |players|
    ensures |r| <= |players|
  {
    if players == [] then []
    else
      var n := |players| - 1;
      Collected(players[..n], means[..n])
        + (if means[n].Some? then [Scored(players[n].id, players[n].name, players[n].position, Impact(means[n].value))]
           else [])
  }

  /** A player contributes an entry exactly when their log was read. */
  lemma {:induction false} CollectedMembers(players: seq<Candidate>, means: seq<Option<RecentMeans>>)
    requires |means| == |players|
    ensures |Collected(players, means)| == |Successes(means)|
    ensures forall k :: 0 <= k < |players| && means[k].Some? ==>
              Scored(players[k].id, players[k].name, players[k].position, Impact(means[k].value)) in Collected(players, means)
  {
    if players != [] {
      var n := |players| - 1;
      CollectedMembers(players[..n], means[..n]);
      assert means[..n] + [means[n]] == means;
    }
  }

  /** The reads that succeeded. */
  function Successes(means: seq<Option<RecentMeans>>): seq<RecentMeans>
  {
    if means == [] then []
    else Successes(means[..|means| - 1]) + (if means[|means| - 1].Some? then [means[|means| - 1].value] else [])
  }

  predicate SortedDesc(s: seq<Scored>)
  {
    forall i, j :: 0 <= i < j < |s| ==> s[i].impact >= s[j].impact
  }

  /** Puts `x` after every entry of a descending list whose impact is at least its own. */
  function Insert(x: Scored, s: seq<Scored>): seq<Scored>
  {
    if s == [] then [x]
    else if s[0].impact >= x.impact then [s[0]] + Insert(x, s[1..])
    else [x] + s
  }

  /** Python's `sorted(list, key=impact, reverse=True)`: a stable sort, largest impact first. */
  function SortDesc(s: seq<Scored>): seq<Scored>
  {
    if s == [] then [] else Insert(s[|s| - 1], SortDesc(s[..|s| - 1]))
  }

  /** No entry of `s` has impact above `v`. */
  predicate AtMost(s: seq<Scored>, v: real)
  {
    forall i :: 0 <= i < |s| ==> s[i].impact <= v
  }

  lemma {:induction false} InsertAtMost(x: Scored, s: seq<Scored>, v: real)
    requires AtMost(s, v) && x.impact <= v
    ensures AtMost(Insert(x, s), v)
  {
    if s != [] && s[0].impact >= x.impact {
      InsertAtMost(x, s[1..], v);
    }
  }

  lemma {:induction false} InsertSorted(x: Scored, s: seq<Scored>)
    requires SortedDesc(s)
    ensures SortedDesc(Insert(x, s))
  {
    if s != [] && s[0].impact >= x.impact {
      InsertSorted(x, s[1..]);
      InsertAtMost(x, s[1..], s[0].impact);
    }
  }

  lemma {:induction false} InsertMultiset(x: Scored, s: seq<Scored>)
    ensures multiset(Insert(x, s)) == multiset(s) + multiset{x}
  {
    if s != [] && s[0].impact >= x.impact {
      InsertMultiset(x, s[1..]);
      assert s == [s[0]] + s[1..];
    }
  }

  /** The sorted list is in descending order of impact. */
  lemma {:induction false} SortDescSorted(s: seq<Scored>)
    ensures SortedDesc(SortDesc(s))
  {
    if s != [] {
      SortDescSorted(s[..|s| - 1]);
      InsertSorted(s[|s| - 1], SortDesc(s[..|s| - 1]));
    }
  }

  /** The sorted list holds exactly the entries it was given. */
  lemma {:induction false} SortDescPermutation(s: seq<Scored>)
    ensures multiset(SortDesc(s)) == multiset(s)
  {
    if s != [] {
      var init, last := s[..|s| - 1], s[|s| - 1];
      assert init + [last] == s;
      SortDescPermutation(init);
      InsertMultiset(last, SortDesc(init));
    }
  }

  /** The entries of `s` with impact `v`, in order. */
  function WithImpact(s: seq<Scored>, v: real): seq<Scored>
  {
    if s == [] then []
    else (if s[0].impact == v then [s[0]] else []) + WithImpact(s[1..], v)
  }

  lemma {:induction false} WithImpactSnoc(s: seq<Scored>, a: Scored, v: real)
    ensures WithImpact(s + [a], v) == WithImpact(s, v) + (if a.impact == v then [a] else [])
  {
    if s == [] {
      assert [] + [a] == [a];
      assert [a][1..] == [];
    } else {
      assert (s + [a])[1..] == s[1..] + [a];
      WithImpactSnoc(s[1..], a, v);
    }
  }

  lemma {:induction false} WithImpactNone(s: seq<Scored>, v: real)
    requires forall i :: 0 <= i < |s| ==> s[i].impact < v
    ensures WithImpact(s, v) == []
  {
    if s != [] {
      WithImpactNone(s[1..], v);
    }
  }

  lemma {:induction false} WithImpactInsert(x: Scored, s: seq<Scored>, v: real)
    requires SortedDesc(s)
    ensures WithImpact(Insert(x, s), v) == WithImpact(s, v) + (if x.impact == v then [x] else [])
  {
    var tail := if x.impact == v then [x] else [];
    if s == [] {
      assert Insert(x, s) == [x];
      assert [x][1..] == [];
    } else if s[0].impact >= x.impact {
      var r := Insert(x, s[1..]);
      var head := if s[0].impact == v then [s[0]] else [];
      WithImpactInsert(x, s[1..], v);
      assert WithImpact(Insert(x, s), v) == head + WithImpact(r, v) by {
        assert Insert(x, s) == [s[0]] + r;
        assert ([s[0]] + r)[1..] == r;
      }
      assert head + (WithImpact(s[1..], v) + tail) == (head + WithImpact(s[1..], v)) + tail;
    } else {
      assert Insert(x, s) == [x] + s;
      assert ([x] + s)[1..] == s;
      if x.impact == v {
        WithImpactNone(s, v);
      }
    }
  }

  /** Stability: the entries sharing one impact value keep their relative order. */
  lemma {:induction false} SortDescStable(s: seq<Scored>, v: real)
    ensures WithImpact(SortDesc(s), v) == WithImpact(s, v)
  {
    if s != [] {
      var init, last := s[..|s| - 1], s[|s| - 1];
      assert init + [last] == s;
      SortDescStable(init, v);
      SortDescSorted(init);
      WithImpactInsert(last, SortDesc(init), v);
      WithImpactSnoc(init, last, v);
    }
  }

  /** `get_impact_scores` once the logs are fetched: collect the players whose log could be
      read, with their impact, and sort them by impact, largest first. */
  method GetImpactScores(players: seq<Candidate>, means: seq<Option<RecentMeans>>) returns (r: seq<Scored>)
    requires |means| == |players|
    ensures r == SortDesc(Collected(players, means))
  {
    var impactList: seq<Scored> := [];
    var i := 0;
    while i < |players|
      invariant 0 <= i <= |players|
      invariant impactList == Collected(players[..i], means[..i])
    {
      assert players[..i + 1][..i] == players[..i];
      assert means[..i + 1][..i] == means[..i];
      if means[i].Some? {
        impactList := impactList + [Scored(players[i].id, players[i].name, players[i].position, Impact(means[i].value))];
      }
      i := i + 1;
    }
    assert players[..i] == players && means[..i] == means;
    r := SortDesc(impactList);
  }

  // ---------------------------------------------------------------------------------------
  // Score-based defender assignment

  /** The position letter compared: the first character of the position, 'F' when it is
      missing or empty. */
  function PosKey(pos: Option<string>): char
  {
    if pos.None? || pos.value == "" then 'F' else pos.value[0]
  }

  /** The position priority table: G = 1, F = 2, C = 3, any other letter 2. */
  function Priority(c: char): (p: int)
    ensures 1 <= p <= 3
    ensures c == 'G' ==> p == 1
    ensures c == 'C' ==> p == 3
    ensures c != 'G' && c != 'C' ==> p == 2
  {
    if c == 'G' then 1 else if c == 'F' then 2 else if c == 'C' then 3 else 2
  }

  /** The distance between two positions' priorities. */
  function PosScore(h: Scored, o: Scored): (d: int)
    ensures 0 <= d <= 2
    ensures PosKey(h.position) == PosKey(o.position) ==> d == 0
  {
    var a := Priority(PosKey(h.position));
    var b := Priority(PosKey(o.position));
    if a >= b then a - b else b - a
  }

  /** The cost of guarding `h` with `o`: ten per step of position distance plus the
      difference in impact. */
  function MatchScore(h: Scored, o: Scored): (s: real)
    ensures s >= 0.0
    ensures s >= 10.0 * (PosScore(h, o) as real)
  {
    (PosScore(h, o) * 10) as real + Abs(h.impact - o.impact)
  }

  /** The index of the defender the inner loop retains after looking at `opp[..n]`: the first
      unused opponent of least score, `None` while every one seen is used. */
  function BestIndex(h: Scored, opp: seq<Scored>, used: set<string>, n: nat): (b: Option<nat>)
    requires n <= |opp|
    ensures b.Some? ==> b.value < n
  {
    if n == 0 then None
    else
      var prev := BestIndex(h, opp, used, n - 1);
      if opp[n - 1].name in used then prev
      else if prev.None? || MatchScore(h, opp[n - 1]) < MatchScore(h, opp[prev.value]) then Some(n - 1)
      else prev
  }

  /** The pick is unused, no unused opponent scores lower, every unused opponent before it
      scores strictly higher, and there is no pick exactly when all are used. */
  lemma {:induction false} BestIndexSpec(h: Scored, opp: seq<Scored>, used: set<string>, n: nat)
    requires n <= |opp|
    ensures BestIndex(h, opp, used, n).None? <==> forall k :: 0 <= k < n ==> opp[k].name in used
    ensures BestIndex(h, opp, used, n).Some? ==>
              var b := BestIndex(h, opp, used, n).value;
              opp[b].name !in used
              && (forall k :: 0 <= k < n && opp[k].name !in used ==> MatchScore(h, opp[b]) <= MatchScore(h, opp[k]))
              && (forall k :: 0 <= k < b && opp[k].name !in used ==> MatchScore(h, opp[b]) < MatchScore(h, opp[k]))
  {
    if n != 0 {
      BestIndexSpec(h, opp, used, n - 1);
    }
  }

  /** The state of the outer loop: `matchup_dict` and `used_defenders`. */
  datatype Assignment = Assignment(matchups: map<string, string>, used: set<string>)

  /** One round of the outer loop: the retained defender, when there is one and its name is
      not empty, guards `h` and is marked used. */
  function Step(st: Assignment, h: Scored, opp: seq<Scored>): Assignment
  {
    var b := BestIndex(h, opp, st.used, |opp|);
    if b.Some? && opp[b.value].name != "" then
      Assignment(st.matchups[h.name := opp[b.value].name], st.used + {opp[b.value].name})
    else st
  }

  /** The state after the first `n` home players. */
  function AssignUpTo(home: seq<Scored>, opp: seq<Scored>, n: nat): Assignment
    requires n <= |home|
  {
    if n == 0 then Assignment(map[], {}) else Step(AssignUpTo(home, opp, n - 1), home[n - 1], opp)
  }

  /** The inner loop of `create_matchup_assignments`: scan the opponents, skipping used
      names, and keep the first one of least score. */
  method PickDefender(h: Scored, opp: seq<Scored>, used: set<string>) returns (best: Option<string>)
    ensures best.Some? <==> BestIndex(h, opp, used, |opp|).Some?
    ensures best.Some? ==> best.value == opp[BestIndex(h, opp, used, |opp|).value].name
  {
    best := None;
    var bestScore := 0.0;
    var bestAt: Option<nat> := None;
    for j := 0 to |opp|
      invariant bestAt == BestIndex(h, opp, used, j)
      invariant bestAt.Some? ==> best == Some(opp[bestAt.value].name) && bestScore == MatchScore(h, opp[bestAt.value])
      invariant bestAt.None? ==> best.None?
    {
      if opp[j].name in used {
        continue;
      }
      var totalScore := MatchScore(h, opp[j]);
      if best.None? || totalScore < bestScore {
        bestScore := totalScore;
        best := Some(opp[j].name);
        bestAt := Some(j);
      }
    }
  }

  /** The greedy pass of `create_matchup_assignments` over the home players, in impact order. */
  method AssignDefenders(homeSorted: seq<Scored>, oppSorted: seq<Scored>) returns (matchups: map<string, string>)
    ensures matchups == AssignUpTo(homeSorted, oppSorted, |homeSorted|).matchups
  {
    matchups := map[];
    var used: set<string> := {};
    for i := 0 to |homeSorted|
      invariant Assignment(matchups, used) == AssignUpTo(homeSorted, oppSorted, i)
    {
      var bestDefender := PickDefender(homeSorted[i], oppSorted, used);
      if bestDefender.Some? && bestDefender.value != "" {
        matchups := matchups[homeSorted[i].name := bestDefender.value];
        used := used + {bestDefender.value};
      }
    }
  }

  /** `create_matchup_assignments` once names, positions and logs are fetched: both teams are
      scored and sorted by impact, then each home player in turn gets a defender. */
  method CreateMatchupAssignments(home: seq<Candidate>, homeMeans: seq<Option<RecentMeans>>,
                                  opp: seq<Candidate>, oppMeans: seq<Option<RecentMeans>>)
    returns (matchups: map<string, string>)
    requires |homeMeans| == |home| && |oppMeans| == |opp|
    ensures matchups == Assignments(home, homeMeans, opp, oppMeans)
  {
    var homeSorted := GetImpactScores(home, homeMeans);
    var oppSorted := GetImpactScores(opp, oppMeans);
    matchups := AssignDefenders(homeSorted, oppSorted);
  }

  function Assignments(home: seq<Candidate>, homeMeans: seq<Option<RecentMeans>>,
                       opp: seq<Candidate>, oppMeans: seq<Option<RecentMeans>>): map<string, string>
    requires |homeMeans| == |home| && |oppMeans| == |opp|
  {
    var homeSorted := SortDesc(Collected(home, homeMeans));
    AssignUpTo(homeSorted, SortDesc(Collected(opp, oppMeans)), |homeSorted|).matchups
  }

  /** What the outer loop keeps true: every assigned defender is marked used, is a non-empty
      opponent name, and guards one home player only. */
  predicate Consistent(st: Assignment, opp: seq<Scored>)
  {
    (forall k :: k in st.matchups ==> st.matchups[k] in st.used)
    && (forall d :: d in st.used ==> d != "" && d in OppNames(opp))
    && (forall k1, k2 :: k1 in st.matchups && k2 in st.matchups && k1 != k2 ==> st.matchups[k1] != st.matchups[k2])
  }

  lemma StepConsistent(st: Assignment, h: Scored, opp: seq<Scored>)
    requires Consistent(st, opp)
    ensures Consistent(Step(st, h, opp), opp)
  {
    BestIndexSpec(h, opp, st.used, |opp|);
  }

  lemma StepKeys(st: Assignment, h: Scored, opp: seq<Scored>)
    ensures st.matchups.Keys <= Step(st, h, opp).matchups.Keys
  {
  }

  /** No defender guards two home players, and every defender is an opponent. */
  lemma {:induction false} AssignInjective(home: seq<Scored>, opp: seq<Scored>, n: nat)
    requires n <= |home|
    ensures Consistent(AssignUpTo(home, opp, n), opp)
  {
    if n != 0 {
      AssignInjective(home, opp, n - 1);
      StepConsistent(AssignUpTo(home, opp, n - 1), home[n - 1], opp);
    }
  }

  /** After n rounds at most n opponents are used, all of them from the opponent list. */
  lemma {:induction false} AssignUsed(home: seq<Scored>, opp: seq<Scored>, n: nat)
    requires n <= |home|
    ensures AssignUpTo(home, opp, n).used <= OppNames(opp)
    ensures |AssignUpTo(home, opp, n).used| <= n
  {
    if n != 0 {
      var st := AssignUpTo(home, opp, n - 1);
      AssignUsed(home, opp, n - 1);
      var b := BestIndex(home[n - 1], opp, st.used, |opp|);
      if b.Some? {
        assert opp[b.value].name in OppNames(opp);
      }
    }
  }

  /** Once a home player is assigned, later rounds keep a key for that name. */
  lemma {:induction false} AssignKeysGrow(home: seq<Scored>, opp: seq<Scored>, n: nat, n': nat)
    requires n <= n' <= |home|
    ensures AssignUpTo(home, opp, n).matchups.Keys <= AssignUpTo(home, opp, n').matchups.Keys
    decreases n' - n
  {
    if n < n' {
      AssignKeysGrow(home, opp, n, n' - 1);
      StepKeys(AssignUpTo(home, opp, n' - 1), home[n' - 1], opp);
    }
  }

  function OppNames(opp: seq<Scored>): set<string>
  {
    set i | 0 <= i < |opp| :: opp[i].name
  }

  lemma {:induction false} OppNamesSize(opp: seq<Scored>)
    requires forall i, j :: 0 <= i < j < |opp| ==> opp[i].name != opp[j].name
    ensures |OppNames(opp)| == |opp|
  {
    if opp != [] {
      var init := opp[..|opp| - 1];
      OppNamesSize(init);
      assert OppNames(opp) == OppNames(init) + {opp[|opp| - 1].name};
      assert opp[|opp| - 1].name !in OppNames(init);
    }
  }

  /** With fewer than all distinct opponent names used up, some opponent is still free. */
  lemma SomeUnused(opp: seq<Scored>, used: set<string>)
    requires forall i, j :: 0 <= i < j < |opp| ==> opp[i].name != opp[j].name
    requires |used| < |opp| && used <= OppNames(opp)
    ensures exists k :: 0 <= k < |opp| && opp[k].name !in used
  {
    OppNamesSize(opp);
    assert |OppNames(opp) - used| > 0 by {
      assert |OppNames(opp) - used| + |used| == |OppNames(opp)|;
    }
    var d :| d in OppNames(opp) - used;
  }

  /** A round with a free opponent left assigns the home player. */
  lemma StepAssigns(st: Assignment, h: Scored, opp: seq<Scored>)
    requires st.used <= OppNames(opp) && |st.used| < |opp|
    requires forall i, j :: 0 <= i < j < |opp| ==> opp[i].name != opp[j].name
    requires forall i :: 0 <= i < |opp| ==> opp[i].name != ""
    ensures h.name in Step(st, h, opp).matchups
  {
    SomeUnused(opp, st.used);
    BestIndexSpec(h, opp, st.used, |opp|);
  }

  /** Completeness: when the opponents have distinct, non-empty names and are at least as many
      as the home players, every home player gets a defender. */
  lemma AssignComplete(home: seq<Scored>, opp: seq<Scored>, n: nat)
    requires n <= |home| <= |opp|
    requires forall i, j :: 0 <= i < j < |opp| ==> opp[i].name != opp[j].name
    requires forall i :: 0 <= i < |opp| ==> opp[i].name != ""
    ensures forall k :: 0 <= k < n ==> home[k].name in AssignUpTo(home, opp, n).matchups
  {
    forall k | 0 <= k < n ensures home[k].name in AssignUpTo(home, opp, n).matchups {
      AssignedAtRound(home, opp, k);
      AssignKeysGrow(home, opp, k + 1, n);
    }
  }

  /** Round k assigns home player k. */
  lemma AssignedAtRound(home: seq<Scored>, opp: seq<Scored>, k: nat)
    requires k < |home| <= |opp|
    requires forall i, j :: 0 <= i < j < |opp| ==> opp[i].name != opp[j].name
    requires forall i :: 0 <= i < |opp| ==> opp[i].name != ""
    ensures home[k].name in AssignUpTo(home, opp, k + 1).matchups
  {
    AssignUsed(home, opp, k);
    StepAssigns(AssignUpTo(home, opp, k), home[k], opp);
  }

  /** Each assignment takes the best free defender: no opponent still free at that round
      would have scored lower, and any free one listed earlier would have scored higher. */
  lemma AssignPicksBest(home: seq<Scored>, opp: seq<Scored>, n: nat)
    requires n < |home|
    requires BestIndex(home[n], opp, AssignUpTo(home, opp, n).used, |opp|).Some?
    ensures var used := AssignUpTo(home, opp, n).used;
            var b := BestIndex(home[n], opp, used, |opp|).value;
            opp[b].name !in used
            && (forall k :: 0 <= k < |opp| && opp[k].name !in used ==> MatchScore(home[n], opp[b]) <= MatchScore(home[n], opp[k]))
            && (forall k :: 0 <= k < b && opp[k].name !in used ==> MatchScore(home[n], opp[b]) < MatchScore(home[n], opp[k]))
  {
    BestIndexSpec(home[n], opp, AssignUpTo(home, opp, n).used, |opp|);
  }

  // ---------------------------------------------------------------------------------------
  // eFG and the assist factor

  /** The approximate league-average effective field-goal percentage. */
  const LeagueEfg: real := 0.52

  /** Means of FGM, FG3M and FGA over a player's ten most recent games. */
  datatype ShootingMeans = ShootingMeans(fgm: real, fg3m: real, fga: real)

  /** `calculate_eFG`: (FGM + 0.5 * FG3M) / FGA, or the league average when FGA is 0 or the
      log could not be read (`None`). */
  function Efg(means: Option<ShootingMeans>): (e: real)
    ensures means.None? || means.value.fga == 0.0 ==> e == LeagueEfg
    ensures means.Some? && means.value.fga != 0.0 ==> e * means.value.fga == means.value.fgm + 0.5 * means.value.fg3m
  {
    if means.None? || means.value.fga == 0.0 then LeagueEfg
    else (means.value.fgm + 0.5 * means.value.fg3m) / means.value.fga
  }

  /** With 0 <= FG3M <= FGM <= FGA the eFG lies in [0, 1.5]. */
  lemma EfgBounds(m: ShootingMeans)
    requires 0.0 <= m.fg3m <= m.fgm <= m.fga
    ensures 0.0 <= Efg(Some(m)) <= 1.5
  {
    if m.fga != 0.0 {
      WeightedShareBounds(m.fgm, m.fg3m, m.fga);
    }
  }

  lemma WeightedShareBounds(made: real, threes: real, attempts: real)
    requires 0.0 <= threes <= made <= attempts && attempts != 0.0
    ensures 0.0 <= (made + 0.5 * threes) / attempts <= 1.5
  {
  }

  /** The player's eFG scaled by how the defender compares with the league, the defender's
      eFG floored at 0.3. */
  function AdjEfg(playerEfg: real, defenderEfg: real): real
  {
    playerEfg * (LeagueEfg / Max(defenderEfg, 0.3))
  }

  /** A league-average defender leaves the player's eFG unchanged; the higher the defender's
      eFG, the lower the adjusted value; and since the divisor never drops below 0.3 the
      adjustment is at most 0.52 / 0.3. */
  lemma AdjEfgProperties(playerEfg: real, d1: real, d2: real)
    requires playerEfg >= 0.0 && d1 <= d2
    ensures AdjEfg(playerEfg, LeagueEfg) == playerEfg
    ensures AdjEfg(playerEfg, d2) <= AdjEfg(playerEfg, d1)
    ensures 0.0 <= AdjEfg(playerEfg, d1) <= playerEfg * (LeagueEfg / 0.3)
  {
    QuotientAntitone(LeagueEfg, Max(d1, 0.3), Max(d2, 0.3));
    QuotientAntitone(LeagueEfg, 0.3, Max(d1, 0.3));
    ScaleMonotone(playerEfg, LeagueEfg / Max(d2, 0.3), LeagueEfg / Max(d1, 0.3));
    ScaleMonotone(playerEfg, LeagueEfg / Max(d1, 0.3), LeagueEfg / 0.3);
    assert AdjEfg(playerEfg, d2) == playerEfg * (LeagueEfg / Max(d2, 0.3));
    assert AdjEfg(playerEfg, d1) == playerEfg * (LeagueEfg / Max(d1, 0.3));
  }

  lemma QuotientAntitone(a: real, x: real, y: real)
    requires a >= 0.0 && 0.0 < x <= y
    ensures 0.0 <= a / y <= a / x
  {
  }

  lemma ScaleMonotone(p: real, a: real, b: real)
    requires p >= 0.0 && 0.0 <= a <= b
    ensures 0.0 <= p * a <= p * b
  {
  }

  /** The co-players' eFGs, in co-player order. */
  function Efgs(coPlayers: seq<Option<ShootingMeans>>): (es: seq<real>)
    ensures |es| == |coPlayers|
  {
    if coPlayers == [] then []
    else Efgs(coPlayers[..|coPlayers| - 1]) + [Efg(coPlayers[|coPlayers| - 1])]
  }

  /** The assist factor as the source defines it: 1.0 when the co-players cannot be found
      (`None`), there are none, or none has a positive eFG; otherwise their mean positive eFG
      over the league average. */
  function AstFactorOf(coPlayers: Option<seq<Option<ShootingMeans>>>): real
  {
    if coPlayers.None? || coPlayers.value == [] then 1.0
    else FactorOfEfgs(Efgs(coPlayers.value))
  }

  /** Mean positive eFG over the league average, 1.0 without a positive one. */
  function FactorOfEfgs(es: seq<real>): real
  {
    if CountPositive(es) == 0 then 1.0
    else SumPositive(es) / (CountPositive(es) as real) / LeagueEfg
  }

  /** `calculate_ast_factor` once the co-players' logs are fetched. */
  method AstFactor(coPlayers: Option<seq<Option<ShootingMeans>>>) returns (f: real)
    ensures f == AstFactorOf(coPlayers)
  {
    if coPlayers.None? || coPlayers.value == [] {
      return 1.0;
    }
    var ids := coPlayers.value;
    var totalTeammateEfg := 0.0;
    var validTeammates := 0;
    var i := 0;
    while i < |ids|
      invariant 0 <= i <= |ids|
      invariant totalTeammateEfg == SumPositive(Efgs(ids[..i]))
      invariant validTeammates == CountPositive(Efgs(ids[..i]))
    {
      EfgsSnoc(ids, i);
      var efg := Efg(ids[i]);
      if efg > 0.0 {
        totalTeammateEfg := totalTeammateEfg + efg;
        validTeammates := validTeammates + 1;
      }
      i := i + 1;
    }
    assert ids[..i] == ids;
    if validTeammates == 0 {
      return 1.0;
    }
    var teammateEfg := totalTeammateEfg / (validTeammates as real);
    f := teammateEfg / LeagueEfg;
  }

  lemma EfgsSnoc(ids: seq<Option<ShootingMeans>>, i: nat)
    requires i < |ids|
    ensures Efgs(ids[..i + 1]) == Efgs(ids[..i]) + [Efg(ids[i])]
  {
    assert ids[..i + 1][..i] == ids[..i];
  }

  lemma {:induction false} SumPositiveAtMost(xs: seq<real>, hi: real)
    requires forall i :: 0 <= i < |xs| ==> xs[i] <= hi
    ensures SumPositive(xs) <= hi * (CountPositive(xs) as real)
  {
    if xs != [] {
      SumPositiveAtMost(xs[..|xs| - 1], hi);
    }
  }

  lemma {:induction false} SumPositiveAtLeast(xs: seq<real>, lo: real)
    requires forall i :: 0 <= i < |xs| ==> xs[i] > 0.0 ==> xs[i] >= lo
    ensures SumPositive(xs) >= lo * (CountPositive(xs) as real)
  {
    if xs != [] {
      SumPositiveAtLeast(xs[..|xs| - 1], lo);
    }
  }

  /** The factor compares the co-players' mean positive eFG with the league: it lies between
      lo / 0.52 and hi / 0.52 when every positive eFG lies in [lo, hi], and it is 1.0 when no
      eFG is positive. */
  lemma AstFactorBounds(coPlayers: seq<Option<ShootingMeans>>, lo: real, hi: real)
    requires 0.0 < lo <= hi
    requires forall i :: 0 <= i < |Efgs(coPlayers)| ==> Efgs(coPlayers)[i] <= hi
    requires forall i :: 0 <= i < |Efgs(coPlayers)| ==> Efgs(coPlayers)[i] > 0.0 ==> Efgs(coPlayers)[i] >= lo
    ensures CountPositive(Efgs(coPlayers)) > 0 ==>
              lo / LeagueEfg <= AstFactorOf(Some(coPlayers)) <= hi / LeagueEfg
    ensures CountPositive(Efgs(coPlayers)) == 0 ==> AstFactorOf(Some(coPlayers)) == 1.0
  {
    FactorOfEfgsBounds(Efgs(coPlayers), lo, hi);
  }

  lemma FactorOfEfgsBounds(es: seq<real>, lo: real, hi: real)
    requires 0.0 < lo <= hi
    requires forall i :: 0 <= i < |es| ==> es[i] <= hi
    requires forall i :: 0 <= i < |es| ==> es[i] > 0.0 ==> es[i] >= lo
    ensures CountPositive(es) > 0 ==> lo / LeagueEfg <= FactorOfEfgs(es) <= hi / LeagueEfg
  {
    if CountPositive(es) > 0 {
      PositiveMeanAtMost(es, hi);
      PositiveMeanAtLeast(es, lo);
      var mean := SumPositive(es) / (CountPositive(es) as real);
      DivMonotone(lo, mean, LeagueEfg);
      DivMonotone(mean, hi, LeagueEfg);
    }
  }

  /** The mean of the positive entries is at most hi when every entry is. */
  lemma PositiveMeanAtMost(xs: seq<real>, hi: real)
    requires CountPositive(xs) > 0
    requires forall i :: 0 <= i < |xs| ==> xs[i] <= hi
    ensures SumPositive(xs) / (CountPositive(xs) as real) <= hi
  {
    SumPositiveAtMost(xs, hi);
    MeanFromSumAtMost(xs, hi);
  }

  lemma MeanFromSumAtMost(xs: seq<real>, hi: real)
    requires CountPositive(xs) > 0
    requires SumPositive(xs) <= hi * (CountPositive(xs) as real)
    ensures SumPositive(xs) / (CountPositive(xs) as real) <= hi
  {
    MeanAtMost(SumPositive(xs), CountPositive(xs), hi);
  }

  /** The mean of the positive entries is at least lo when every positive entry is. */
  lemma PositiveMeanAtLeast(xs: seq<real>, lo: real)
    requires CountPositive(xs) > 0
    requires forall i :: 0 <= i < |xs| ==> xs[i] > 0.0 ==> xs[i] >= lo
    ensures SumPositive(xs) / (CountPositive(xs) as real) >= lo
  {
    SumPositiveAtLeast(xs, lo);
    MeanFromSumAtLeast(xs, lo);
  }

  lemma MeanFromSumAtLeast(xs: seq<real>, lo: real)
    requires CountPositive(xs) > 0
    requires lo * (CountPositive(xs) as real) <= SumPositive(xs)
    ensures SumPositive(xs) / (CountPositive(xs) as real) >= lo
  {
    MeanAtLeast(SumPositive(xs), CountPositive(xs), lo);
  }

  lemma {:induction false} EfgsAt(coPlayers: seq<Option<ShootingMeans>>)
    ensures forall i :: 0 <= i < |coPlayers| ==> Efgs(coPlayers)[i] == Efg(coPlayers[i])
  {
    if coPlayers != [] {
      EfgsAt(coPlayers[..|coPlayers| - 1]);
    }
  }

  lemma MeanAtMost(sum: real, count: nat, hi: real)
    requires count > 0 && sum <= hi * (count as real)
    ensures sum / (count as real) <= hi
  {
  }

  lemma MeanAtLeast(sum: real, count: nat, lo: real)
    requires count > 0 && lo * (count as real) <= sum
    ensures lo <= sum / (count as real)
  {
  }

  lemma DivMonotone(a: real, b: real, d: real)
    requires d > 0.0 && a <= b
    ensures a / d <= b / d
  {
  }

  /** League-average co-players give a neutral factor. */
  lemma AstFactorNeutral(coPlayers: seq<Option<ShootingMeans>>)
    requires coPlayers != []
    requires forall i :: 0 <= i < |coPlayers| ==> Efg(coPlayers[i]) == LeagueEfg
    ensures AstFactorOf(Some(coPlayers)) == 1.0
  {
    EfgsAt(coPlayers);
    assert Efgs(coPlayers)[0] > 0.0;
    CountPositiveZero(Efgs(coPlayers));
    AstFactorBounds(coPlayers, LeagueEfg, LeagueEfg);
  }

  // ---------------------------------------------------------------------------------------
  // The rebound factor

  /** A height in inches and a position, as `get_player_height_and_position` returns them. */
  type Profile = (int, Option<string>)

  /** A position naming a forward or a centre. */
  predicate IsBig(pos: Option<string>)
  {
    pos.Some? && ('F' in pos.value || 'C' in pos.value)
  }

  function SumHeights(ps: seq<Profile>): int
  {
    if ps == [] then 0 else SumHeights(ps[..|ps| - 1]) + ps[|ps| - 1].0
  }

  function CountBigs(ps: seq<Profile>): (n: nat)
    ensures n <= |ps|
  {
    if ps == [] then 0 else CountBigs(ps[..|ps| - 1]) + (if IsBig(ps[|ps| - 1].1) then 1 else 0)
  }

  function SumInts(hs: seq<int>): int
  {
    if hs == [] then 0 else SumInts(hs[..|hs| - 1]) + hs[|hs| - 1]
  }

  /** The positional bonus: +0.2 for a guard with no forward or centre beside her, else +0.1
      for a forward with exactly one. */
  function BaseFactor(pos: Option<string>, bigs: nat): (b: real)
    ensures b == 1.0 || b == 1.1 || b == 1.2
  {
    if pos.Some? && 'G' in pos.value && bigs == 0 then 1.2
    else if pos.Some? && 'F' in pos.value && bigs == 1 then 1.1
    else 1.0
  }

  /** The rebound factor as the source defines it: 1.0 without co-players (or when they
      cannot be found, `None`); otherwise the positional bonus plus the height edge over the
      co-players (per 24 inches) and over the opponents (per 36 inches, 72 inches when there
      are none), clamped to [0.85, 1.2]. */
  function RebFactorOf(player: Profile, teammates: Option<seq<Profile>>, oppHeights: seq<int>): (f: real)
    ensures 0.85 <= f <= 1.2
    ensures teammates.None? || teammates.value == [] ==> f == 1.0
  {
    if teammates.None? || teammates.value == [] then 1.0
    else
      var ts := teammates.value;
      var avgTeammateHeight := (SumHeights(ts) as real) / (|ts| as real);
      var avgOppHeight := if oppHeights == [] then 72.0 else (SumInts(oppHeights) as real) / (|oppHeights| as real);
      var raw := BaseFactor(player.1, CountBigs(ts))
                 + (player.0 as real - avgTeammateHeight) / 24.0
                 + (player.0 as real - avgOppHeight) / 36.0;
      Clamp(raw, 0.85, 1.2)
  }

  /** `get_reb_factor` once the heights and positions are fetched. */
  method RebFactor(player: Profile, teammates: Option<seq<Profile>>, oppHeights: seq<int>) returns (f: real)
    ensures f == RebFactorOf(player, teammates, oppHeights)
  {
    if teammates.None? || teammates.value == [] {
      return 1.0;
    }
    var ts := teammates.value;
    var heightTotal := 0;
    var bigs := 0;
    var i := 0;
    while i < |ts|
      invariant 0 <= i <= |ts|
      invariant heightTotal == SumHeights(ts[..i]) && bigs == CountBigs(ts[..i])
    {
      assert ts[..i + 1][..i] == ts[..i];
      heightTotal := heightTotal + ts[i].0;
      if IsBig(ts[i].1) {
        bigs := bigs + 1;
      }
      i := i + 1;
    }
    assert ts[..i] == ts;
    var avgTeammateHeight := (heightTotal as real) / (|ts| as real);
    var oppTotal := 0;
    var k := 0;
    while k < |oppHeights|
      invariant 0 <= k <= |oppHeights|
      invariant oppTotal == SumInts(oppHeights[..k])
    {
      assert oppHeights[..k + 1][..k] == oppHeights[..k];
      oppTotal := oppTotal + oppHeights[k];
      k := k + 1;
    }
    assert oppHeights[..k] == oppHeights;
    var avgOppHeight := if oppHeights == [] then 72.0 else (oppTotal as real) / (|oppHeights| as real);
    var rebFactor := BaseFactor(player.1, bigs) + (player.0 as real - avgTeammateHeight) / 24.0
                     + (player.0 as real - avgOppHeight) / 36.0;
    f := Max(0.85, Min(rebFactor, 1.2));
  }

  lemma {:induction false} SumHeightsConstant(ps: seq<Profile>, h: int)
    requires forall i :: 0 <= i < |ps| ==> ps[i].0 == h
    ensures SumHeights(ps) == h * |ps|
  {
    if ps != [] {
      SumHeightsConstant(ps[..|ps| - 1], h);
    }
  }

  lemma {:induction false} SumIntsConstant(hs: seq<int>, h: int)
    requires forall i :: 0 <= i < |hs| ==> hs[i] == h
    ensures SumInts(hs) == h * |hs|
  {
    if hs != [] {
      SumIntsConstant(hs[..|hs| - 1], h);
    }
  }

  lemma MeanOfConstant(h: int, n: int)
    requires n > 0
    ensures ((h * n) as real) / (n as real) == h as real
  {
  }

  /** A player no taller than anyone around her and with no positional bonus gets the neutral
      factor 1.0; a guard with no big beside her gets the full 1.2. */
  lemma RebFactorLevelCourt(player: Profile, ts: seq<Profile>, oppHeights: seq<int>)
    requires ts != []
    requires forall i :: 0 <= i < |ts| ==> ts[i].0 == player.0
    requires forall i :: 0 <= i < |oppHeights| ==> oppHeights[i] == player.0
    requires oppHeights == [] ==> player.0 == 72
    ensures BaseFactor(player.1, CountBigs(ts)) == 1.0 ==> RebFactorOf(player, Some(ts), oppHeights) == 1.0
    ensures BaseFactor(player.1, CountBigs(ts)) == 1.2 ==> RebFactorOf(player, Some(ts), oppHeights) == 1.2
  {
    SumHeightsConstant(ts, player.0);
    SumIntsConstant(oppHeights, player.0);
    MeanOfConstant(player.0, |ts|);
    if oppHeights != [] {
      MeanOfConstant(player.0, |oppHeights|);
    }
  }

  // ---------------------------------------------------------------------------------------
  // Segment minutes and the projection

  /** `calculate_segment_mins`: a quarter (10 of 40 minutes) of the mean minutes, or 8.0 when
      the log cannot be read (`None`). */
  function SegmentMinutes(meanMin: Option<real>): (seg: real)
    ensures meanMin.None? ==> seg == 8.0
    ensures meanMin.Some? ==> 4.0 * seg == meanMin.value
  {
    if meanMin.None? then 8.0 else meanMin.value * (10.0 / 40.0)
  }

  /** One of the player's ten most recent games. */
  datatype GameLine = GameLine(pts: real, reb: real, ast: real, min: real, ftm: real, fta: real)

  /** The returned record. */
  datatype Projection = Projection(
    playerId: int, opponentId: int, segmentMinutes: real, usageRate: real, adjEfg: real,
    ftPct: real, estFga: real, estFta: real,
    pts: real, reb: real, ast: real,
    ptsStd: real, rebStd: real, astStd: real)

  /** The record returned when the stats cannot be computed. */
  function DefaultProjection(playerId: int, defenderId: int): (p: Projection)
    ensures p.playerId == playerId && p.opponentId == defenderId
    ensures p.pts == 12.0 && p.reb == 4.0 && p.ast == 3.0
    ensures p.ptsStd == 3.0 && p.rebStd == 1.5 && p.astStd == 1.0
  {
    Projection(playerId, defenderId, 8.0, 0.2, 0.5, 0.8, 8.0, 2.0, 12.0, 4.0, 3.0, 3.0, 1.5, 1.0)
  }

  function SumPts(g: seq<GameLine>): real
  {
    if g == [] then 0.0 else SumPts(g[..|g| - 1]) + g[|g| - 1].pts
  }

  function SumReb(g: seq<GameLine>): real
  {
    if g == [] then 0.0 else SumReb(g[..|g| - 1]) + g[|g| - 1].reb
  }

  function SumAst(g: seq<GameLine>): real
  {
    if g == [] then 0.0 else SumAst(g[..|g| - 1]) + g[|g| - 1].ast
  }

  function SumMin(g: seq<GameLine>): real
  {
    if g == [] then 0.0 else SumMin(g[..|g| - 1]) + g[|g| - 1].min
  }

  function SumFtm(g: seq<GameLine>): real
  {
    if g == [] then 0.0 else SumFtm(g[..|g| - 1]) + g[|g| - 1].ftm
  }

  function SumFta(g: seq<GameLine>): real
  {
    if g == [] then 0.0 else SumFta(g[..|g| - 1]) + g[|g| - 1].fta
  }

  /** Free-throw percentage over the recent games, 0.8 when there were no attempts. */
  function FtPct(recent: seq<GameLine>): (p: real)
    ensures SumFta(recent) == 0.0 ==> p == 0.8
    ensures SumFta(recent) != 0.0 ==> p * SumFta(recent) == SumFtm(recent)
  {
    if SumFta(recent) != 0.0 then SumFtm(recent) / SumFta(recent) else 0.8
  }

  lemma {:induction false} FreeThrowSums(recent: seq<GameLine>)
    requires forall i :: 0 <= i < |recent| ==> 0.0 <= recent[i].ftm <= recent[i].fta
    ensures 0.0 <= SumFtm(recent) <= SumFta(recent)
  {
    if recent != [] {
      FreeThrowSums(recent[..|recent| - 1]);
    }
  }

  /** When no game has more makes than attempts, the percentage lies in [0, 1]. */
  lemma FtPctBounds(recent: seq<GameLine>)
    requires forall i :: 0 <= i < |recent| ==> 0.0 <= recent[i].ftm <= recent[i].fta
    ensures 0.0 <= FtPct(recent) <= 1.0
  {
    FreeThrowSums(recent);
    if SumFta(recent) != 0.0 {
      ShareBounds(SumFtm(recent), SumFta(recent));
    }
  }

  lemma ShareBounds(part: real, whole: real)
    requires 0.0 <= part <= whole && whole != 0.0
    ensures 0.0 <= part / whole <= 1.0
  {
  }

  /** Free-throw attempts per minute played, 0 when no minutes were played. */
  function FtaPerMin(recent: seq<GameLine>): (r: real)
    ensures SumMin(recent) <= 0.0 ==> r == 0.0
    ensures SumMin(recent) > 0.0 ==> r * SumMin(recent) == SumFta(recent)
  {
    if SumMin(recent) > 0.0 then SumFta(recent) / SumMin(recent) else 0.0
  }

  /** A sample standard deviation with its fallback where pandas gives NaN (`None`). */
  function StdOr(std: Option<real>, fallback: real): (r: real)
    ensures std.None? ==> r == fallback
    ensures std.Some? ==> r == std.value
  {
    if std.None? then fallback else std.value
  }

  /** The factors and fetched values the projection combines. */
  datatype Factors = Factors(
    playerEfg: real, defenderEfg: real, teamAstFactor: real, oppAstFactor: real,
    rebFactor: real, segmentMinutes: real, usageRate: real, possessions: real)

  /** The sample standard deviations of PTS, REB and AST (`None` for NaN). */
  datatype Stds = Stds(pts: Option<real>, reb: Option<real>, ast: Option<real>)

  /** The projection of `get_primary_defender_matchup` over a non-empty set of recent games. */
  function Project(playerId: int, defenderId: int, recent: seq<GameLine>, stds: Stds, f: Factors): (p: Projection)
    requires recent != []
    ensures p.playerId == playerId && p.opponentId == defenderId
    ensures p.ptsStd == StdOr(stds.pts, 3.0) && p.rebStd == StdOr(stds.reb, 1.5) && p.astStd == StdOr(stds.ast, 1.0)
  {
    var n := |recent| as real;
    var adjEfg := AdjEfg(f.playerEfg, f.defenderEfg);
    var segmentPossessions := f.possessions * (f.segmentMinutes / 40.0);
    var estFga := segmentPossessions * f.usageRate * 4.0;
    var estFta := FtaPerMin(recent) * f.segmentMinutes * 4.0;
    Projection(
      playerId, defenderId, f.segmentMinutes, f.usageRate, adjEfg, FtPct(recent), estFga, estFta,
      estFga * adjEfg * 2.0 + estFta * FtPct(recent),
      SumReb(recent) / n * f.rebFactor,
      SumAst(recent) / n * f.teamAstFactor * f.oppAstFactor,
      StdOr(stds.pts, 3.0), StdOr(stds.reb, 1.5), StdOr(stds.ast, 1.0))
  }

  /** The estimated attempts are proportional to the usage rate: the projection at usage u
      attempts u times what it would at usage 1. */
  lemma ProjectUsageLinear(playerId: int, defenderId: int, recent: seq<GameLine>, stds: Stds, f: Factors)
    requires recent != []
    ensures Project(playerId, defenderId, recent, stds, f).estFga
            == f.usageRate * Project(playerId, defenderId, recent, stds, f.(usageRate := 1.0)).estFga
  {
  }

  /** A busier player is projected no fewer attempts and no fewer points. */
  lemma ProjectUsageMonotone(playerId: int, defenderId: int, recent: seq<GameLine>, stds: Stds, f: Factors,
                             u1: real, u2: real)
    requires recent != []
    requires 0.0 <= u1 <= u2
    requires f.possessions >= 0.0 && f.segmentMinutes >= 0.0 && f.playerEfg >= 0.0
    ensures Project(playerId, defenderId, recent, stds, f.(usageRate := u1)).estFga
            <= Project(playerId, defenderId, recent, stds, f.(usageRate := u2)).estFga
    ensures Project(playerId, defenderId, recent, stds, f.(usageRate := u1)).pts
            <= Project(playerId, defenderId, recent, stds, f.(usageRate := u2)).pts
  {
    var c := f.possessions * (f.segmentMinutes / 40.0);
    ScaleMonotone(f.possessions, 0.0, f.segmentMinutes / 40.0);
    ScaleMonotone(c, u1, u2);
    AdjEfgProperties(f.playerEfg, f.defenderEfg, f.defenderEfg);
    var adj := AdjEfg(f.playerEfg, f.defenderEfg);
    ScaleMonotone(adj * 2.0, c * u1 * 4.0, c * u2 * 4.0);
  }

  /** A faster game (more team possessions) gives no fewer attempts and no fewer points. */
  lemma ProjectPossessionsMonotone(playerId: int, defenderId: int, recent: seq<GameLine>, stds: Stds, f: Factors,
                                   p1: real, p2: real)
    requires recent != []
    requires 0.0 <= p1 <= p2
    requires f.usageRate >= 0.0 && f.segmentMinutes >= 0.0 && f.playerEfg >= 0.0
    ensures Project(playerId, defenderId, recent, stds, f.(possessions := p1)).estFga
            <= Project(playerId, defenderId, recent, stds, f.(possessions := p2)).estFga
    ensures Project(playerId, defenderId, recent, stds, f.(possessions := p1)).pts
            <= Project(playerId, defenderId, recent, stds, f.(possessions := p2)).pts
  {
    var k := (f.segmentMinutes / 40.0) * f.usageRate * 4.0;
    Product3(f.segmentMinutes / 40.0, f.usageRate, 4.0);
    ScaleMonotone(k, p1, p2);
    assert p1 * (f.segmentMinutes / 40.0) * f.usageRate * 4.0 == k * p1;
    assert p2 * (f.segmentMinutes / 40.0) * f.usageRate * 4.0 == k * p2;
    AdjEfgProperties(f.playerEfg, f.defenderEfg, f.defenderEfg);
    var adj := AdjEfg(f.playerEfg, f.defenderEfg);
    ScaleMonotone(adj * 2.0, k * p1, k * p2);
  }

  /** With non-negative inputs every projected stat is non-negative. */
  lemma ProjectNonNegative(playerId: int, defenderId: int, recent: seq<GameLine>, stds: Stds, f: Factors)
    requires recent != []
    requires forall i :: 0 <= i < |recent| ==> recent[i].reb >= 0.0 && recent[i].ast >= 0.0
    requires forall i :: 0 <= i < |recent| ==> recent[i].min >= 0.0 && 0.0 <= recent[i].ftm <= recent[i].fta
    requires f.playerEfg >= 0.0 && f.teamAstFactor >= 0.0 && f.oppAstFactor >= 0.0 && f.rebFactor >= 0.0
    requires f.segmentMinutes >= 0.0 && f.usageRate >= 0.0 && f.possessions >= 0.0
    ensures Project(playerId, defenderId, recent, stds, f).pts >= 0.0
    ensures Project(playerId, defenderId, recent, stds, f).reb >= 0.0
    ensures Project(playerId, defenderId, recent, stds, f).ast >= 0.0
  {
    NonNegativeSums(recent);
    FtPctBounds(recent);
    AdjEfgProperties(f.playerEfg, f.defenderEfg, f.defenderEfg);
    var n := |recent| as real;
    var adjEfg := AdjEfg(f.playerEfg, f.defenderEfg);
    var estFga := f.possessions * (f.segmentMinutes / 40.0) * f.usageRate * 4.0;
    var estFta := FtaPerMin(recent) * f.segmentMinutes * 4.0;
    assert FtaPerMin(recent) >= 0.0 by {
      if SumMin(recent) > 0.0 {
        QuotientAntitone(SumFta(recent), SumMin(recent), SumMin(recent));
      }
    }
    Product3(f.possessions, f.segmentMinutes / 40.0, f.usageRate * 4.0);
    Product3(FtaPerMin(recent), f.segmentMinutes, 4.0);
    assert estFga * adjEfg * 2.0 >= 0.0;
    assert estFta * FtPct(recent) >= 0.0;
    Product3(SumReb(recent) / n, f.rebFactor, 1.0);
    Product3(SumAst(recent) / n, f.teamAstFactor, f.oppAstFactor);
  }

  lemma Product3(a: real, b: real, c: real)
    requires a >= 0.0 && b >= 0.0 && c >= 0.0
    ensures a * b * c >= 0.0 && a * (b * c) >= 0.0
  {
  }

  lemma {:induction false} NonNegativeSums(recent: seq<GameLine>)
    requires forall i :: 0 <= i < |recent| ==> recent[i].reb >= 0.0 && recent[i].ast >= 0.0
    requires forall i :: 0 <= i < |recent| ==> recent[i].min >= 0.0 && recent[i].fta >= 0.0
    ensures SumReb(recent) >= 0.0 && SumAst(recent) >= 0.0 && SumMin(recent) >= 0.0 && SumFta(recent) >= 0.0
  {
    if recent != [] {
      NonNegativeSums(recent[..|recent| - 1]);
    }
  }

  /** A worked case: 80 possessions, an 8-minute segment, 25% usage and league-average eFGs
      give 16 estimated attempts, and 5 of 32 minutes' free throws give 5 more attempts at
      80%, for 20.64 points. */
  lemma ProjectExample()
    ensures Project(1, 2, [GameLine(20.0, 5.0, 4.0, 32.0, 4.0, 5.0)], Stds(None, None, None),
                    Factors(0.52, 0.52, 1.0, 1.0, 1.0, 8.0, 0.25, 80.0))
            == Projection(1, 2, 8.0, 0.25, 0.52, 0.8, 16.0, 5.0, 20.64, 5.0, 4.0, 3.0, 1.5, 1.0)
  {
    var g := [GameLine(20.0, 5.0, 4.0, 32.0, 4.0, 5.0)];
    assert g[..0] == [];
    assert SumFta(g) == 5.0 && SumFtm(g) == 4.0 && SumMin(g) == 32.0;
    assert SumReb(g) == 5.0 && SumAst(g) == 4.0;
  }

  // ---------------------------------------------------------------------------------------
  // get_primary_defender_matchup

  /** Why `get_primary_defender_matchup` raises before any stats are computed. */
  datatype Failure = HomeTeamUnknown | NoOpponentTeam | NoMatchup | UnknownDefender

  datatype Outcome = Raised(failure: Failure) | Computed(record: Projection)

  /** The first successful team lookup among the opponents. */
  function FirstFound(lookups: seq<Option<int>>): Option<int>
  {
    if lookups == [] then None else if lookups[0].Some? then lookups[0] else FirstFound(lookups[1..])
  }

  /** The loop stops at the first opponent whose team can be looked up; there is none only
      when every lookup fails. */
  lemma {:induction false} FirstFoundSpec(lookups: seq<Option<int>>)
    ensures FirstFound(lookups).None? <==> forall i :: 0 <= i < |lookups| ==> lookups[i].None?
    ensures FirstFound(lookups).Some? ==>
              exists i :: 0 <= i < |lookups| && lookups[i] == FirstFound(lookups)
                            && forall j :: 0 <= j < i ==> lookups[j].None?
  {
    if lookups != [] && lookups[0].None? {
      FirstFoundSpec(lookups[1..]);
      if FirstFound(lookups).Some? {
        var i :| 0 <= i < |lookups[1..]| && lookups[1..][i] == FirstFound(lookups[1..])
                 && forall j :: 0 <= j < i ==> lookups[1..][j].None?;
        assert lookups[i + 1] == FirstFound(lookups);
      }
    }
  }

  /** The opponent-team loop: try each opponent's lookup in order, stop at the first that
      succeeds. */
  method FindOpponentTeam(lookups: seq<Option<int>>) returns (teamId: Option<int>)
    ensures teamId == FirstFound(lookups)
  {
    teamId := None;
    var i := 0;
    while i < |lookups|
      invariant 0 <= i <= |lookups|
      invariant FirstFound(lookups) == FirstFound(lookups[i..])
    {
      if lookups[i].Some? {
        teamId := lookups[i];
        break;
      }
      assert lookups[i..][1..] == lookups[i + 1..];
      i := i + 1;
    }
  }

  /** Everything the try block of `get_primary_defender_matchup` fetches; `None` where that
      fetch raises (which sends the function to its default record) or, for co-players, where
      the factor's own handler returns its neutral value. */
  datatype Fetched = Fetched(
    log: Option<seq<GameLine>>, stds: Stds,
    playerShooting: Option<ShootingMeans>, defenderShooting: Option<ShootingMeans>,
    playerCoPlayers: Option<seq<Option<ShootingMeans>>>, defenderCoPlayers: Option<seq<Option<ShootingMeans>>>,
    playerProfile: Profile, teammateProfiles: Option<seq<Profile>>, oppOnCourtHeights: Option<seq<int>>,
    meanMinutes: Option<real>, usageRate: Option<real>, possessions: Option<real>)

  /** The try block: the projection, or the default record when the log is missing or empty
      or one of the unguarded fetches raises. */
  function Stats(playerId: int, defenderId: int, f: Fetched): (p: Projection)
    ensures p.playerId == playerId && p.opponentId == defenderId
  {
    if f.log.None? || Recent(f.log.value) == [] || f.oppOnCourtHeights.None?
       || f.usageRate.None? || f.possessions.None? then
      DefaultProjection(playerId, defenderId)
    else
      Project(playerId, defenderId, Recent(f.log.value), f.stds,
              Factors(Efg(f.playerShooting), Efg(f.defenderShooting),
                      AstFactorOf(f.playerCoPlayers), AstFactorOf(f.defenderCoPlayers),
                      RebFactorOf(f.playerProfile, f.teammateProfiles, f.oppOnCourtHeights.value),
                      SegmentMinutes(f.meanMinutes), f.usageRate.value, f.possessions.value))
  }

  /** The defender's name in the assignment, when there is a non-empty one. */
  predicate HasMatchup(matchups: map<string, string>, playerName: string)
  {
    playerName in matchups && matchups[playerName] != ""
  }

  /** An opponent team was found and its id is not 0 (Python treats 0 as missing). */
  predicate OpponentKnown(lookups: seq<Option<int>>)
  {
    FirstFound(lookups).Some? && FirstFound(lookups).value != 0
  }

  /** `get_primary_defender_matchup` once the matchups are built and the data fetched. The
      home team lookup (`homeTeam`), the opponents' team lookups in order, and the
      name-to-id directory are inputs. */
  method PrimaryDefenderMatchup(matchups: map<string, string>, playerId: int, playerName: string,
                                homeTeam: Option<int>, oppLookups: seq<Option<int>>,
                                directory: map<string, int>, f: Fetched) returns (o: Outcome)
    ensures homeTeam.None? ==> o == Raised(HomeTeamUnknown)
    ensures homeTeam.Some? && !OpponentKnown(oppLookups) ==> o == Raised(NoOpponentTeam)
    ensures homeTeam.Some? && OpponentKnown(oppLookups) && !HasMatchup(matchups, playerName) ==>
              o == Raised(NoMatchup)
    ensures (homeTeam.Some? && OpponentKnown(oppLookups) && HasMatchup(matchups, playerName)
             && matchups[playerName] !in directory) ==> o == Raised(UnknownDefender)
    ensures (homeTeam.Some? && OpponentKnown(oppLookups) && HasMatchup(matchups, playerName)
             && matchups[playerName] in directory) ==>
              o == Computed(Stats(playerId, directory[matchups[playerName]], f))
  {
    if homeTeam.None? {
      return Raised(HomeTeamUnknown);
    }
    var oppTeamId := FindOpponentTeam(oppLookups);
    if oppTeamId.None? || oppTeamId.value == 0 {
      return Raised(NoOpponentTeam);
    }
    if playerName !in matchups || matchups[playerName] == "" {
      return Raised(NoMatchup);
    }
    var defenderName := matchups[playerName];
    if defenderName !in directory {
      return Raised(UnknownDefender);
    }
    var defenderId := directory[defenderName];
    o := Computed(Stats(playerId, defenderId, f));
  }

  /** The stats fall back to the default record whenever the log is missing or empty or one
      of the unguarded fetches (the defender's on-court heights, the usage rate, the possession
      estimate) fails. Otherwise they are the projection of the recent games with the factors'
      own fallbacks: each factor's neutral value where its fetch failed. */
  lemma StatsCases(playerId: int, defenderId: int, f: Fetched)
    ensures (f.log.None? || |f.log.value| == 0 || f.oppOnCourtHeights.None? || f.usageRate.None?
             || f.possessions.None?) ==>
              Stats(playerId, defenderId, f) == DefaultProjection(playerId, defenderId)
    ensures f.log.Some? && |f.log.value| > 0 && f.oppOnCourtHeights.Some? && f.usageRate.Some? && f.possessions.Some? ==>
              Stats(playerId, defenderId, f)
              == Project(playerId, defenderId, Recent(f.log.value), f.stds,
                         Factors(Efg(f.playerShooting), Efg(f.defenderShooting),
                                 AstFactorOf(f.playerCoPlayers), AstFactorOf(f.defenderCoPlayers),
                                 RebFactorOf(f.playerProfile, f.teammateProfiles, f.oppOnCourtHeights.value),
                                 SegmentMinutes(f.meanMinutes), f.usageRate.value, f.possessions.value))
    ensures f.log.Some? && |f.log.value| > 0 && f.oppOnCourtHeights.Some? && f.usageRate.Some? && f.possessions.Some? ==>
              var p := Stats(playerId, defenderId, f);
              p.usageRate == f.usageRate.value
              && p.segmentMinutes == SegmentMinutes(f.meanMinutes)
              && p.adjEfg == AdjEfg(Efg(f.playerShooting), Efg(f.defenderShooting))
              && p.reb == SumReb(Recent(f.log.value)) / (|Recent(f.log.value)| as real)
                          * RebFactorOf(f.playerProfile, f.teammateProfiles, f.oppOnCourtHeights.value)
  {
  }
}
